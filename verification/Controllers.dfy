/** The reconcilers and the watch loop as the operator runs them: methods over the resources of one VCP and the shared
    log. Which API calls fail is an input. Each call of a reconciler is proved to be a run of steps of the state machine
    in RosterModel; it gives up early only if an API call fails, and else does what module Passes says. */
module Controllers {
  import opened Wrappers
  import opened EtcdLog
  import opened RosterModel
  import opened RosterSafety
  import opened Passes
  import opened Calls

  // Runs of steps of one reconciler or watcher.

  function JobRun(n: nat, p: nat, j: nat, s: Config, k: nat): Config
    decreases k
  {
    if k == 0 then s
    else
      var eff := JobStep(n, s.log, p, j, s.cell);
      JobRun(n, p, j, Config(s.log + eff.puts, eff.cell), k - 1)
  }

  lemma {:induction false} JobRunSum(n: nat, p: nat, j: nat, s: Config, a: nat, b: nat)
    ensures JobRun(n, p, j, s, a + b) == JobRun(n, p, j, JobRun(n, p, j, s, a), b)
    decreases a
  {
    if a > 0 {
      var eff := JobStep(n, s.log, p, j, s.cell);
      JobRunSum(n, p, j, Config(s.log + eff.puts, eff.cell), a - 1, b);
    }
  }

  /** For each step of a run of the task reconciler, the players whose tasks could not be read. */
  type Misses = seq<set<nat>>

  /** How many tasks could not be read. */
  function Missed(misses: Misses): nat {
    if misses == [] then 0 else |misses[0]| + Missed(misses[1..])
  }

  lemma {:induction false} MissedSum(a: Misses, b: Misses)
    ensures Missed(a + b) == Missed(a) + Missed(b)
  {
    if a == [] {
      assert a + b == b;
    } else {
      MissedSum(a[1..], b);
      assert (a + b)[1..] == a[1..] + b;
    }
  }

  /** All tasks could be read. */
  predicate AllRead(misses: Misses) {
    forall u :: u in misses ==> u == {}
  }

  lemma {:induction false} NothingMissed(misses: Misses)
    ensures Missed(misses) == 0 <==> AllRead(misses)
  {
    if misses != [] {
      var first, rest := misses[0], misses[1..];
      NothingMissed(rest);
      assert forall u :: u in misses <==> u == first || u in rest;
      assert first in misses;
    }
  }

  /** The players below n whose tasks cannot be read with one call per player. */
  function Unreadable(results: nat -> bool, from: nat, n: nat): (unread: set<nat>)
    ensures forall q :: q in unread ==> q < n
  {
    if n == 0 then {} else Unreadable(results, from, n - 1) + if results(from + n - 1) then {} else {n - 1}
  }

  lemma UnreadableMore(results: nat -> bool, from: nat, n: nat)
    ensures results(from + n) ==> Unreadable(results, from, n + 1) == Unreadable(results, from, n)
    ensures !results(from + n) ==>
              && Unreadable(results, from, n + 1) == Unreadable(results, from, n) + {n}
              && |Unreadable(results, from, n + 1)| == |Unreadable(results, from, n)| + 1
  {
    assert Unreadable(results, from, n) + {} == Unreadable(results, from, n);
  }

  lemma {:induction false} UnreadableIf(results: nat -> bool, from: nat, n: nat, q: nat)
    ensures q in Unreadable(results, from, n) <==> q < n && !results(from + q)
  {
    if n > 0 {
      UnreadableIf(results, from, n - 1, q);
    }
  }

  lemma TasksMore(i: nat, tasks: map<nat, TaskStatus>, unread: set<nat>)
    requires forall q :: q in unread ==> q < i
    ensures TasksForJob(i + 1, tasks, unread + {i}) == TasksForJob(i, tasks, unread)
    ensures TasksForJob(i + 1, tasks, unread)
            == if i in tasks then TasksForJob(i, tasks, unread)[i := tasks[i]] else TasksForJob(i, tasks, unread)
  {
  }

  function TaskRun(n: nat, p: nat, j: nat, s: Config, misses: Misses): Config
    decreases |misses|
  {
    if misses == [] then s
    else
      var eff := TaskStep(n, s.log, p, j, s.cell, misses[0]);
      TaskRun(n, p, j, Config(s.log + eff.puts, eff.cell), misses[1..])
  }

  lemma TaskRunOne(n: nat, p: nat, j: nat, s: Config, u: set<nat>)
    ensures var eff := TaskStep(n, s.log, p, j, s.cell, u);
            TaskRun(n, p, j, s, [u]) == Config(s.log + eff.puts, eff.cell)
    ensures s.log + [] == s.log && Missed([u]) == |u|
  {
    assert [u][1..] == [];
  }

  lemma {:induction false} TaskRunSum(n: nat, p: nat, j: nat, s: Config, a: Misses, b: Misses)
    ensures TaskRun(n, p, j, s, a + b) == TaskRun(n, p, j, TaskRun(n, p, j, s, a), b)
    ensures Missed(a + b) == Missed(a) + Missed(b)
    decreases |a|
  {
    MissedSum(a, b);
    if a == [] {
      assert a + b == b;
    } else {
      var eff := TaskStep(n, s.log, p, j, s.cell, a[0]);
      assert (a + b)[1..] == a[1..] + b;
      TaskRunSum(n, p, j, Config(s.log + eff.puts, eff.cell), a[1..], b);
    }
  }

  /** k steps of the job reconciler, to the end of its pass if done, and giving up then, lead to a configuration. */
  ghost predicate JobRan(n: nat, p: nat, j: nat, s: Config, k: nat, done: bool, to: Config) {
    var end := JobRun(n, p, j, s, k);
    to == end.(cell := end.cell.(jobPc := JobIdle)) && (done ==> end.cell.jobPc == JobIdle)
  }

  lemma JobRanOn(n: nat, p: nat, j: nat, s: Config, a: nat, b: nat, done: bool, to: Config)
    requires JobRan(n, p, j, JobRun(n, p, j, s, a), b, done, to)
    ensures JobRan(n, p, j, s, a + b, done, to)
  {
    JobRunSum(n, p, j, s, a, b);
  }

  ghost predicate TaskRan(n: nat, p: nat, j: nat, s: Config, misses: Misses, done: bool, to: Config) {
    var end := TaskRun(n, p, j, s, misses);
    to == end.(cell := end.cell.(taskPc := TaskIdle)) && (done ==> end.cell.taskPc == TaskIdle)
  }

  lemma TaskRanOn(n: nat, p: nat, j: nat, s: Config, a: Misses, b: Misses, done: bool, to: Config)
    requires TaskRan(n, p, j, TaskRun(n, p, j, s, a), b, done, to)
    ensures TaskRan(n, p, j, s, a + b, done, to)
    ensures Missed(a + b) == Missed(a) + Missed(b)
  {
    TaskRunSum(n, p, j, s, a, b);
  }

  datatype WatchConfig = WatchConfig(log: seq<Event>, vcp: Vcp)

  function WatchRun(p: nat, from: WatchConfig, acts: seq<Action>): WatchConfig {
    if acts == [] then from
    else
      var s := WatchRun(p, from, acts[..|acts| - 1]);
      var eff := OperatorStep(s.log, p, s.vcp, acts[|acts| - 1]);
      WatchConfig(s.log + eff.puts, eff.vcp)
  }

  lemma WatchRunMore(p: nat, from: WatchConfig, acts: seq<Action>, a: Action)
    ensures var s := WatchRun(p, from, acts); var eff := OperatorStep(s.log, p, s.vcp, a);
            WatchRun(p, from, acts + [a]) == WatchConfig(s.log + eff.puts, eff.vcp)
  {
    assert (acts + [a])[..|acts|] == acts;
  }

  lemma OneAction(p: nat, from: WatchConfig, a: Action)
    ensures var eff := OperatorStep(from.log, p, from.vcp, a);
            WatchRun(p, from, [a]) == WatchConfig(from.log + eff.puts, eff.vcp)
    ensures from.log + [] == from.log
  {
    assert [a][..0] == [];
  }

  lemma {:induction false} WatchRunConcat(p: nat, from: WatchConfig, acts: seq<Action>, more: seq<Action>)
    ensures WatchRun(p, from, acts + more) == WatchRun(p, WatchRun(p, from, acts), more)
    decreases |more|
  {
    if more == [] {
      assert acts + more == acts;
    } else {
      var init, a := more[..|more| - 1], more[|more| - 1];
      WatchRunConcat(p, from, acts, init);
      assert acts + more == (acts + init) + [a];
      WatchRunMore(p, from, acts + init, a);
    }
  }

  /** A response with header revision upto, to a watch that has reached at, carries at least one event. */
  ghost predicate Delivers(log: seq<Event>, at: nat, upto: nat) {
    at < upto <= |log| && exists i :: at <= i < upto && IsRosterEvent(log[i])
  }

  /** Where a watch that has reached at stands when some responses to it have been handled. */
  function Reached(at: nat, revisions: seq<nat>, served: nat): nat
    requires served <= |revisions|
  {
    if served == 0 then at else revisions[served - 1]
  }

  /** The header revisions of the responses to a watch that has reached at. */
  ghost predicate Responses(log: seq<Event>, at: nat, revisions: seq<nat>) {
    forall i {:trigger Reached(at, revisions, i)} :: 0 <= i < |revisions| ==>
      Delivers(log, Reached(at, revisions, i), revisions[i])
  }

  lemma StillDelivers(log: seq<Event>, longer: seq<Event>, at: nat, upto: nat)
    requires Delivers(log, at, upto) && log <= longer
    ensures Delivers(longer, at, upto)
  {
    var i :| at <= i < upto && IsRosterEvent(log[i]);
    assert IsRosterEvent(longer[i]);
  }

  /** Steps of a watcher; only after a fault is an event lost or the watch torn down. */
  predicate WatcherActions(p: nat, acts: seq<Action>, fault: bool) {
    forall a :: a in acts ==>
      || a == WatchTick(p) || (a.Receive? && a.player == p)
      || (fault && (a == Drop(p) || a == Reconnect(p)))
  }

  lemma TickFirst(p: nat, from: WatchConfig, more: seq<Action>, fault: bool)
    requires WatcherActions(p, more, fault)
    ensures WatcherActions(p, [WatchTick(p)] + more, fault)
    ensures WatchRun(p, from, [WatchTick(p)] + more) == WatchRun(p, WatchRun(p, from, [WatchTick(p)]), more)
  {
    WatchRunConcat(p, from, [WatchTick(p)], more);
  }

  // Task lists.

  datatype TaskItem = TaskItem(owner: nat, player: nat, status: TaskStatus)

  predicate Distinct(items: seq<TaskItem>) {
    forall i, k :: 0 <= i < k < |items| ==> items[i].owner != items[k].owner || items[i].player != items[k].player
  }

  /** What listing all tasks of the cluster returns, in some order. */
  predicate IsListing(items: seq<TaskItem>, cells: seq<Cell>, upto: nat)
    requires upto <= |cells|
  {
    && Distinct(items)
    && (forall x :: x in items ==> x.owner < upto && x.player in cells[x.owner].tasks
                                   && cells[x.owner].tasks[x.player] == x.status)
    && (forall j, q :: 0 <= j < upto && q in cells[j].tasks ==> TaskItem(j, q, cells[j].tasks[q]) in items)
  }

  /** The tasks owned by job j, as a list. */
  ghost predicate Lists(owned: seq<TaskItem>, j: nat, tasks: map<nat, TaskStatus>) {
    && Distinct(owned)
    && (forall x :: x in owned ==> x.owner == j && x.player in tasks && tasks[x.player] == x.status)
    && (forall q :: q in tasks ==> TaskItem(j, q, tasks[q]) in owned)
  }

  method OwnedBy(items: seq<TaskItem>, j: nat) returns (owned: seq<TaskItem>)
    ensures forall x :: x in owned <==> x in items && x.owner == j
    ensures Distinct(items) ==> Distinct(owned)
  {
    owned := [];
    for i := 0 to |items|
      invariant forall x :: x in owned <==> x in items[..i] && x.owner == j
      invariant Distinct(items) ==> Distinct(owned)
    {
      assert items[..i + 1] == items[..i] + [items[i]];
      if items[i].owner == j {
        assert Distinct(items) ==> forall x :: x in items[..i] ==> x.owner != j || x.player != items[i].player;
        owned := owned + [items[i]];
      }
    }
    assert items[..|items|] == items;
  }

  method AllTerminated(tasks: seq<TaskItem>) returns (all: bool)
    ensures all <==> forall x :: x in tasks ==> Terminal(x.status.state)
  {
    for i := 0 to |tasks|
      invariant forall x :: x in tasks[..i] ==> Terminal(x.status.state)
    {
      if tasks[i].status.state != Completed && tasks[i].status.state != Failed {
        return false;
      }
      assert tasks[..i + 1] == tasks[..i] + [tasks[i]];
    }
    assert tasks[..|tasks|] == tasks;
    return true;
  }

  method AnyFailed(tasks: seq<TaskItem>) returns (any: bool)
    ensures any <==> exists x :: x in tasks && x.status.state == Failed
  {
    for i := 0 to |tasks|
      invariant forall x :: x in tasks[..i] ==> x.status.state != Failed
    {
      if tasks[i].status.state == Failed {
        return true;
      }
      assert tasks[..i + 1] == tasks[..i] + [tasks[i]];
    }
    assert tasks[..|tasks|] == tasks;
    return false;
  }

  /** The number of listed tasks is the number of players that have a task. */
  lemma {:induction false} ListedOnce(owned: seq<TaskItem>, j: nat, tasks: map<nat, TaskStatus>)
    requires Lists(owned, j, tasks)
    ensures |owned| == |tasks|
  {
    if owned != [] {
      var rest, x := owned[..|owned| - 1], owned[|owned| - 1];
      assert owned == rest + [x];
      var fewer := tasks - {x.player};
      forall q | q in fewer ensures TaskItem(j, q, fewer[q]) in rest {
        assert TaskItem(j, q, tasks[q]) in owned;
      }
      ListedOnce(rest, j, fewer);
      assert fewer.Keys == tasks.Keys - {x.player};
    } else {
      assert tasks.Keys == {};
    }
  }

  /** What a list of tasks says about a job that needs n of them. */
  predicate ListSays(n: nat, owned: seq<TaskItem>, st: JobState) {
    match st
    case JobUnset => false
    case JobPending => |owned| < n
    case JobRunning => |owned| >= n && exists x :: x in owned && !Terminal(x.status.state)
    case JobFailed =>
      && |owned| >= n && (forall x :: x in owned ==> Terminal(x.status.state))
      && exists x :: x in owned && x.status.state == Failed
    case JobCompleted => |owned| >= n && forall x :: x in owned ==> x.status.state == Completed
  }

  /** The job state that a reconciler derives from the listed tasks; JobUnset stands for no decision. */
  method DeriveState(n: nat, owned: seq<TaskItem>, current: JobState, ghost j: nat, ghost tasks: map<nat, TaskStatus>)
    returns (state: JobState)
    requires Lists(owned, j, tasks)
    ensures if state == JobUnset then current == JobCompleted && ListSays(n, owned, JobCompleted)
            else ListSays(n, owned, state) && (state == JobCompleted ==> current != JobCompleted)
    ensures Aggregate(n, tasks, current) == if state == JobUnset then None else Some(state)
  {
    ListedOnce(owned, j, tasks);
    state := JobUnset;
    var all := AllTerminated(owned);
    var failed := AnyFailed(owned);
    assert all <==> forall q :: q in tasks ==> Terminal(tasks[q].state) by {
      assert forall q :: q in tasks ==> TaskItem(j, q, tasks[q]) in owned;
    }
    assert failed <==> exists q :: q in tasks && tasks[q].state == Failed by {
      assert forall q :: q in tasks ==> TaskItem(j, q, tasks[q]) in owned;
      assert forall x :: x in owned ==> x.player in tasks && tasks[x.player] == x.status;
    }
    if |owned| < n {
      state := JobPending;
    } else if !all {
      state := JobRunning;
    } else if failed {
      state := JobFailed;
    } else if current != JobCompleted {
      state := JobCompleted;
    }
  }

  /** The non-empty endpoints, by player; the map is visited in any order. */
  method CollectKnown(tasks: map<nat, TaskStatus>) returns (endpoints: map<nat, string>)
    ensures endpoints == Endpoints(tasks)
  {
    endpoints := map[];
    var keys := tasks.Keys;
    while keys != {}
      invariant keys <= tasks.Keys
      invariant endpoints == map q | q in tasks && q !in keys && tasks[q].endpoint != "" :: tasks[q].endpoint
      decreases |keys|
    {
      var q :| q in keys;
      keys := keys - {q};
      if tasks[q].endpoint != "" {
        endpoints := endpoints[q := tasks[q].endpoint];
      }
    }
  }

  /** The endpoints of all players are among the known ones. */
  ghost predicate AllKnown(n: nat, known: map<nat, string>) {
    forall q :: 0 <= q < n ==> q in known
  }

  lemma KnownOfAll(n: nat, known: map<nat, string>)
    requires forall q :: q in known ==> q < n
    ensures |known| == n <==> AllKnown(n, known)
  {
    FullSet(n, known.Keys);
    if |known| == n {
      FullTable(n, known);
    } else if AllKnown(n, known) {
      FullSize(n, known);
    }
  }

  /** The step of the task reconciler that collects the endpoints. */
  lemma CollectRun(n: nat, p: nat, j: nat, s: Config, u: set<nat>)
    requires s.cell.taskPc.Collect?
    ensures var st, service := s.cell.taskPc.status, s.cell.taskPc.service;
            var known := Endpoints(TasksForJob(n, s.cell.tasks, u));
            TaskRun(n, p, j, s, [u])
            == s.(cell := s.cell.(taskPc :=
                 if AllKnown(n, known) then WriteStatus(st.(state := Launching))
                 else if p !in known && Addressed(service) then WriteStatus(st.(endpoint := Address(service) + ":5000"))
                 else TaskIdle))
  {
    TaskRunOne(n, p, j, s, u);
    EndpointIs(s.cell.taskPc.service);
    KnownOfAll(n, Endpoints(TasksForJob(n, s.cell.tasks, u)));
    if Addressed(s.cell.taskPc.service) {
      assert Address(s.cell.taskPc.service) + ":" + PORT == Address(s.cell.taskPc.service) + ":5000";
    }
  }

  lemma KnownOfTasks(n: nat, t: map<nat, TaskStatus>)
    ensures AllKnown(n, Endpoints(TasksForJob(n, t, {}))) <==> AllEndpoints(n, t)
  {
    var known := Endpoints(TasksForJob(n, t, {}));
    if AllKnown(n, known) {
      forall q | 0 <= q < n ensures q in t && t[q].endpoint != "" {
        assert q in known;
      }
    }
  }

  /** The step of the task reconciler that looks for all tasks, without a generator pod. */
  lemma LaunchRun(n: nat, p: nat, j: nat, s: Config, u: set<nat>)
    requires s.cell.taskPc.Act? && s.cell.taskPc.status.state == Launching && s.cell.owned.generator.None?
    ensures var st, tasks := s.cell.taskPc.status, TasksForJob(n, s.cell.tasks, u);
            TaskRun(n, p, j, s, [u])
            == s.(cell := s.cell.(taskPc :=
                 if |tasks| == n then CreateGenerator(st, Endpoints(tasks)) else TaskIdle))
    ensures Missed([u]) == |u|
  {
    TaskRunOne(n, p, j, s, u);
  }

  lemma KnownEndpoints(n: nat, t: map<nat, TaskStatus>)
    ensures IsEndpointList(n, t, Endpoints(TasksForJob(n, t, {})))
  {
  }

  lemma AllTasks(n: nat, t: map<nat, TaskStatus>)
    ensures |TasksForJob(n, t, {})| == n <==> Full(n, t)
  {
    var tasks := TasksForJob(n, t, {});
    if |tasks| == n {
      FullTable(n, tasks);
      forall q | 0 <= q < n ensures q in t {
        assert q in tasks;
      }
    } else if Full(n, t) {
      FullSet(n, tasks.Keys);
      FullSize(n, tasks);
    }
  }

  /** Not a load balancer, or one whose first ingress point has neither IP nor hostname. */
  predicate Unusable(service: Service) {
    !service.loadBalancer || (service.ingress != [] && !Addressed(service))
  }

  /** Interrupted: an API call failed; Error: the reconciler itself found something missing. */
  datatype Outcome = Interrupted | Error | Done | Requeue

  class Operator {
    const n: nat
    const p: nat
    const results: nat -> bool   // whether an API call succeeds, by its number
    var made: nat                // API calls made so far
    var log: seq<Event>          // etcd, shared with the other VCPs
    var cells: seq<Cell>         // Kubernetes resources and activated chunks by job; the reconcilers' counters are idle
    var watcher: Watcher
    ghost var handled: nat       // leading events dispatched so far

    ghost predicate Valid()
      reads this
    {
      p < n && forall j :: 0 <= j < |cells| ==> cells[j].jobPc == JobIdle && cells[j].taskPc == TaskIdle
    }

    ghost function View(): WatchConfig
      reads this
    {
      WatchConfig(log, Vcp(cells, watcher, handled))
    }

    /** The number of API calls that have failed so far. */
    ghost function Failures(): nat
      reads this`made
    {
      FailuresAmong(results, made)
    }

    constructor (n: nat, p: nat, m: nat, results: nat -> bool)
      requires p < n
      ensures Valid() && this.n == n && this.p == p && this.results == results && fresh(this)
      ensures View() == WatchConfig([], Init(n, m).vcps[p]) && made == 0
    {
      this.n, this.p, this.results, made := n, p, results, 0;
      log, cells, watcher, handled := [], seq(m, _ => EMPTY), Reading, 0;
      new;
      assert Init(n, m).vcps[p].cells == cells;
    }

    /** Call an API: the next result says whether the call succeeds. */
    method Call() returns (ok: bool)
      modifies this`made
      ensures Failures() == old(Failures()) + if ok then 0 else 1
      ensures made == old(made) + 1 && ok == results(old(made))
    {
      OneMoreCall(results, made);
      ok := results(made);
      made := made + 1;
    }

    method List() returns (items: seq<TaskItem>)
      ensures IsListing(items, cells, |cells|)
    {
      items := [];
      for j := 0 to |cells|
        invariant IsListing(items, cells, j)
      {
        items := ListCell(items, j);
      }
    }

    method ListCell(items: seq<TaskItem>, j: nat) returns (more: seq<TaskItem>)
      requires j < |cells| && IsListing(items, cells, j)
      ensures IsListing(more, cells, j + 1)
    {
      more := items;
      var tasks := cells[j].tasks;
      var keys := tasks.Keys;
      while keys != {}
        invariant keys <= tasks.Keys && Distinct(more)
        invariant forall x :: x in more <==>
                    || x in items
                    || (x.owner == j && x.player in tasks && x.player !in keys && x.status == tasks[x.player])
        decreases |keys|
      {
        var q :| q in keys;
        keys := keys - {q};
        more := more + [TaskItem(j, q, tasks[q])];
      }
    }

    /** One call of the job reconciler is a run of job steps; it is cut short exactly if an API call fails, and else is
        a whole pass. */
    method ReconcileJob(j: nat) returns (r: Outcome, ghost k: nat)
      requires Valid() && j < |cells|
      modifies this`log, this`cells, this`made
      ensures Valid() && |cells| == |old(cells)| && cells == old(cells)[j := cells[j]] && Failures() >= old(Failures())
      ensures JobRan(n, p, j, Config(old(log), old(cells[j])), k, r != Interrupted, Config(log, cells[j]))
      ensures r != Interrupted ==> k > 0
      ensures r == Requeue ==> p !in old(cells[j].tasks) && p in cells[j].tasks
      ensures r == Interrupted <==> Failures() > old(Failures())
      ensures r != Interrupted ==> JobPass(n, p, j, Config(old(log), old(cells[j])), Config(log, cells[j]))
    {
      r, k := Interrupted, 0;
      ghost var start := Config(log, cells[j]);
      var ok := Call();
      if !ok { return; }
      if cells[j].job.None? {
        r, k := CleanUp(j);
        return;
      }
      var job := cells[j].job.value;
      ok := Call();
      if !ok { return Interrupted, 1; }
      ghost var first := Config(log, cells[j].(jobPc := GetRoster(job)));
      assert JobRun(n, p, j, start, 1) == first;
      r, k := ProceedWithJob(j, job);
      JobRanOn(n, p, j, start, 1, k, r != Interrupted, Config(log, cells[j]));
      k := k + 1;
    }

    /** Roster, local task and state of a job that exists. */
    method ProceedWithJob(j: nat, job: Job) returns (r: Outcome, ghost k: nat)
      requires Valid() && j < |cells| && cells[j].job == Some(job)
      modifies this`log, this`cells, this`made
      ensures Valid() && |cells| == |old(cells)| && cells == old(cells)[j := cells[j]] && Failures() >= old(Failures())
      ensures JobRan(n, p, j, Config(old(log), old(cells[j]).(jobPc := GetRoster(job))),
                     k, r != Interrupted, Config(log, cells[j]))
      ensures r == Requeue ==> p !in old(cells[j].tasks) && p in cells[j].tasks
      ensures r == Interrupted <==> Failures() > old(Failures())
      ensures r != Interrupted ==> JobPass(n, p, j, Config(old(log), old(cells[j])), Config(log, cells[j]))
    {
      ghost var start := Config(log, cells[j].(jobPc := GetRoster(job)));
      r, k := EnsureRoster(j, job);
      if r != Requeue { return; }
      ghost var l;
      r, l := EnsureTask(j, job);
      JobRanOn(n, p, j, start, k, l, r != Interrupted, Config(log, cells[j]));
      k := k + l;
    }

    /** The job does not exist (any more): the master deletes the roster. */
    method CleanUp(j: nat) returns (r: Outcome, ghost k: nat)
      requires Valid() && j < |cells| && cells[j].job.None?
      modifies this`log, this`made
      ensures JobRan(n, p, j, Config(old(log), cells[j]), k, r != Interrupted, Config(log, cells[j]))
      ensures r != Requeue && k > 0 && Failures() >= old(Failures())
      ensures r == Interrupted <==> Failures() > old(Failures())
      ensures r != Interrupted ==> JobPass(n, p, j, Config(old(log), cells[j]), Config(log, cells[j]))
    {
      ghost var start := Config(log, cells[j]);
      k := 1;
      if p == 0 {
        assert JobRun(n, p, j, start, 1) == Config(log, cells[j].(jobPc := DeleteRoster));
        var ok := Call();
        if !ok { return Interrupted, k; }
        if Roster(log, j).Some? {
          log := log + [RosterDelete(j)];
        }
        k := 2;
      }
      r := Done;
    }

    /** Requeue stands for going on: the roster exists. */
    method EnsureRoster(j: nat, job: Job) returns (r: Outcome, ghost k: nat)
      requires Valid() && j < |cells| && cells[j].job == Some(job)
      modifies this`log, this`made
      ensures var start := Config(old(log), cells[j].(jobPc := GetRoster(job)));
              if r == Requeue then JobRun(n, p, j, start, k) == Config(log, cells[j].(jobPc := GetTask(job)))
              else JobRan(n, p, j, start, k, r != Interrupted, Config(log, cells[j]))
      ensures Failures() >= old(Failures()) && (r == Interrupted <==> Failures() > old(Failures()))
      ensures r != Error && (r == Done <==> Roster(old(log), j).None? && p != 0)
      ensures log == if r == Requeue && Roster(old(log), j).None? then old(log) + [RosterPut(j, job.spec)] else old(log)
    {
      r, k := Interrupted, 1;
      if Roster(log, j).None? {
        if p != 0 {
          return Done, k;
        }
        var ok := Call();
        if !ok { return; }
        ghost var start := Config(log, cells[j].(jobPc := GetRoster(job)));
        assert JobRun(n, p, j, start, 1) == Config(log, cells[j].(jobPc := PutRoster(job)));
        log := log + [RosterPut(j, job.spec)];
        k := 2;
      }
      r := Requeue;
    }

    method EnsureTask(j: nat, job: Job) returns (r: Outcome, ghost k: nat)
      requires Valid() && j < |cells| && cells[j].job == Some(job)
      modifies this`cells, this`made
      ensures Valid() && |cells| == |old(cells)| && cells == old(cells)[j := cells[j]] && Failures() >= old(Failures())
      ensures var start := Config(log, old(cells[j]).(jobPc := GetTask(job)));
              JobRan(n, p, j, start, k, r != Interrupted, Config(log, cells[j]))
      ensures r == Requeue ==> p !in old(cells[j].tasks) && p in cells[j].tasks
      ensures r == Interrupted <==> Failures() > old(Failures())
      ensures var c := old(cells[j]);
              r != Interrupted ==>
                if p !in c.tasks then cells[j] == c.(tasks := c.tasks[p := BLANK]) else StatePass(n, c, cells[j])
    {
      r, k := Interrupted, 0;
      var ok := Call();
      if !ok { return; }
      ghost var start := Config(log, cells[j].(jobPc := GetTask(job)));
      if p !in cells[j].tasks {
        r, k := CreateLocalTask(j, job);
        return;
      }
      assert JobRun(n, p, j, start, 1) == Config(log, cells[j].(jobPc := ListTasks(job)));
      r, k := ReadAndUpdate(j, job);
      JobRanOn(n, p, j, start, 1, k, r != Interrupted, Config(log, cells[j]));
      k := k + 1;
    }

    method ReadAndUpdate(j: nat, job: Job) returns (r: Outcome, ghost k: nat)
      requires Valid() && j < |cells| && cells[j].job == Some(job)
      modifies this`cells, this`made
      ensures Valid() && |cells| == |old(cells)| && cells == old(cells)[j := cells[j]] && r != Requeue
      ensures JobRan(n, p, j, Config(log, old(cells[j]).(jobPc := ListTasks(job))),
                     k, r != Interrupted, Config(log, cells[j]))
      ensures Failures() >= old(Failures()) && (r == Interrupted <==> Failures() > old(Failures()))
      ensures r != Interrupted ==> StatePass(n, old(cells[j]), cells[j])
    {
      var ok := Call();
      if !ok { return Interrupted, 0; }
      r, k := UpdateState(j, job);
    }

    method CreateLocalTask(j: nat, job: Job) returns (r: Outcome, ghost k: nat)
      requires Valid() && j < |cells| && cells[j].job == Some(job) && p !in cells[j].tasks
      modifies this`cells, this`made
      ensures Valid() && |cells| == |old(cells)| && cells == old(cells)[j := cells[j]]
      ensures JobRan(n, p, j, Config(log, old(cells[j]).(jobPc := GetTask(job))),
                     k, r != Interrupted, Config(log, cells[j]))
      ensures Failures() >= old(Failures()) && r == if Failures() > old(Failures()) then Interrupted else Requeue
      ensures var c := old(cells[j]);
              cells[j] == if r == Requeue then c.(tasks := c.tasks[p := BLANK]) else c
    {
      assert log + [] == log;
      assert JobRun(n, p, j, Config(log, cells[j].(jobPc := GetTask(job))), 1)
             == Config(log, cells[j].(jobPc := JobPc.CreateTask));
      var ok := Call();
      if !ok { return Interrupted, 1; }
      cells := cells[j := cells[j].(tasks := cells[j].tasks[p := BLANK])];
      return Requeue, 2;
    }

    /** The job state that the owned tasks imply; JobUnset stands for no decision. */
    method Derive(j: nat, job: Job) returns (state: JobState)
      requires j < |cells| && cells[j].job == Some(job)
      ensures Aggregate(n, cells[j].tasks, job.state) == if state == JobUnset then None else Some(state)
      ensures state == JobCompleted ==> job.state != JobCompleted
    {
      var items := List();
      var owned := OwnedBy(items, j);
      state := DeriveState(n, owned, job.state, j, cells[j].tasks);
    }

    /** The last part of a pass: derive the state from the owned tasks, activate the chunk, store the state. An id that
        identifies no chunk is an error. */
    method UpdateState(j: nat, job: Job) returns (r: Outcome, ghost k: nat)
      requires Valid() && j < |cells| && cells[j].job == Some(job)
      modifies this`cells, this`made
      ensures Valid() && |cells| == |old(cells)| && cells == old(cells)[j := cells[j]] && r != Requeue
      ensures JobRan(n, p, j, Config(log, old(cells[j]).(jobPc := ListTasks(job))),
                     k, r != Interrupted, Config(log, cells[j]))
      ensures Failures() >= old(Failures()) && (r == Interrupted <==> Failures() > old(Failures()))
      ensures r != Interrupted ==> StatePass(n, old(cells[j]), cells[j])
      ensures r == Error <==> TasksSay(n, old(cells[j]).tasks, JobCompleted)
                              && job.state != JobCompleted && !job.spec.idIsUuid
    {
      ghost var start := Config(log, cells[j].(jobPc := ListTasks(job)));
      var state := Derive(j, job);
      ghost var said := AggregateSays(n, cells[j].tasks, job.state);
      k := 1;
      assert log + [] == log;
      if state == JobCompleted {
        if !job.spec.idIsUuid { return Error, k; }
        assert JobRun(n, p, j, start, 1) == Config(log, cells[j].(jobPc := Activate));
        r := ActivateChunk(j);
        if r == Interrupted { return; }
        JobRunSum(n, p, j, start, 1, 1);
        k := 2;
      }
      r := Done;
      if state != JobUnset && state != job.state {
        assert JobRun(n, p, j, start, k) == Config(log, cells[j].(jobPc := UpdateJob(state)));
        r := StoreState(j, job, state);
        if r == Done {
          JobRunSum(n, p, j, start, k, 1);
          k := k + 1;
        }
      }
    }

    method ActivateChunk(j: nat) returns (r: Outcome)
      requires Valid() && j < |cells|
      modifies this`cells, this`made
      ensures Valid() && |cells| == |old(cells)| && cells == old(cells)[j := cells[j]]
      ensures Failures() >= old(Failures()) && r == if Failures() > old(Failures()) then Interrupted else Done
      ensures cells[j] == if r == Done then old(cells[j]).(activated := true) else old(cells[j])
      ensures r == Done ==>
                JobRun(n, p, j, Config(log, old(cells[j]).(jobPc := Activate)), 1)
                == Config(log, cells[j].(jobPc := UpdateJob(JobCompleted)))
    {
      var ok := Call();
      if !ok { return Interrupted; }
      cells := cells[j := cells[j].(activated := true)];
      assert log + [] == log;
      return Done;
    }

    method StoreState(j: nat, job: Job, state: JobState) returns (r: Outcome)
      requires Valid() && j < |cells| && cells[j].job == Some(job)
      modifies this`cells, this`made
      ensures Valid() && |cells| == |old(cells)| && cells == old(cells)[j := cells[j]]
      ensures Failures() >= old(Failures()) && r == if Failures() > old(Failures()) then Interrupted else Done
      ensures cells[j] == if r == Done then old(cells[j]).(job := Some(job.(state := state))) else old(cells[j])
      ensures r == Done ==>
                JobRun(n, p, j, Config(log, old(cells[j]).(jobPc := UpdateJob(state))), 1) == Config(log, cells[j])
    {
      var ok := Call();
      if !ok { return Interrupted; }
      cells := cells[j := cells[j].(job := Some(job.(state := state)))];
      assert log + [] == log;
      return Done;
    }

    // The task reconciler. misses says, step by step, whose tasks could not be read when tasks were collected.

    /** The tasks of the job, by player; those that cannot be read are skipped. */
    method TasksByPlayer(j: nat) returns (tasks: map<nat, TaskStatus>, ghost unread: set<nat>)
      requires j < |cells|
      modifies this`made
      ensures tasks == TasksForJob(n, cells[j].tasks, unread)
      ensures forall q :: q in tasks ==> q < n && q in cells[j].tasks && tasks[q] == cells[j].tasks[q]
      ensures unread == Unreadable(results, old(made), n)
      ensures Failures() == old(Failures()) + |unread|
    {
      tasks, unread := map[], {};
      ghost var from := made;
      for i := 0 to n
        invariant made == from + i && Failures() == old(Failures()) + |unread|
        invariant unread == Unreadable(results, from, i) && tasks == TasksForJob(i, cells[j].tasks, unread)
      {
        tasks, unread := ReadTask(j, i, tasks, unread, from);
      }
    }

    method ReadTask(j: nat, i: nat, tasks: map<nat, TaskStatus>, ghost unread: set<nat>, ghost from: nat)
      returns (more: map<nat, TaskStatus>, ghost missed: set<nat>)
      requires j < |cells| && made == from + i
      requires unread == Unreadable(results, from, i) && tasks == TasksForJob(i, cells[j].tasks, unread)
      modifies this`made
      ensures made == from + i + 1 && Failures() + |unread| == old(Failures()) + |missed|
      ensures missed == Unreadable(results, from, i + 1) && more == TasksForJob(i + 1, cells[j].tasks, missed)
    {
      UnreadableMore(results, from, i);
      TasksMore(i, cells[j].tasks, unread);
      more, missed := tasks, Unreadable(results, from, i + 1);
      var ok := Call();
      if ok && i in cells[j].tasks {
        more := tasks[i := cells[j].tasks[i]];
      }
    }

    /** One call of the task reconciler, for the local task, is a run of task steps; it is cut short only if an API call
        fails, and without a failing call it is a whole pass. */
    method ReconcileTask(j: nat) returns (r: Outcome, ghost misses: Misses)
      requires Valid() && j < |cells|
      modifies this`log, this`cells, this`made
      ensures Valid() && |cells| == |old(cells)| && cells == old(cells)[j := cells[j]] && Failures() >= old(Failures())
      ensures TaskRan(n, p, j, Config(old(log), old(cells[j])), misses, r != Interrupted, Config(log, cells[j]))
      ensures r != Interrupted ==> misses != []
      ensures Failures() >= old(Failures()) + Missed(misses)
      ensures r == Interrupted <==> Failures() > old(Failures()) + Missed(misses)
      ensures Failures() == old(Failures()) ==>
                && r != Interrupted && AllRead(misses)
                && TaskPass(n, p, j, Config(old(log), old(cells[j])), Config(log, cells[j]))
    {
      r, misses := Interrupted, [];
      ghost var start := Config(log, cells[j]);
      var ok := Call();
      if !ok { return; }
      misses := [{}];
      TaskRunOne(n, p, j, start, {});
      if p !in cells[j].tasks {
        ghost var second := Config(log, cells[j].(taskPc := DeleteEntry));
        assert TaskRun(n, p, j, start, misses) == second;
        ok := Call();
        if !ok { return; }
        if Entry(log, j, p).Some? {
          log := log + [EntryDelete(j, p)];
        }
        TaskRunOne(n, p, j, second, {});
        TaskRanOn(n, p, j, start, misses, [{}], true, Config(log, cells[j]));
        NothingMissed(misses + [{}]);
        return Done, misses + [{}];
      }
      assert TaskRun(n, p, j, start, misses) == Config(log, cells[j].(taskPc := GetEntry));
      ghost var more;
      ok, more := EnsureEntry(j);
      TaskRunSum(n, p, j, start, misses, more);
      misses := misses + more;
      if !ok { return; }
      assert TaskRun(n, p, j, start, misses) == Config(log, cells[j].(taskPc := GetStatus));
      r, more := ProceedWithTask(j);
      TaskRanOn(n, p, j, start, misses, more, r != Interrupted, Config(log, cells[j]));
      misses := misses + more;
      NothingMissed(misses);
    }

    /** Create the roster entry if there is none. */
    method EnsureEntry(j: nat) returns (ok: bool, ghost misses: Misses)
      requires Valid() && j < |cells| && p in cells[j].tasks
      modifies this`log, this`made
      ensures var start := Config(old(log), cells[j].(taskPc := GetEntry));
              if ok then TaskRun(n, p, j, start, misses) == Config(log, cells[j].(taskPc := GetStatus))
              else TaskRan(n, p, j, start, misses, false, Config(log, cells[j]))
      ensures Failures() >= old(Failures()) && (ok <==> Failures() == old(Failures())) && Missed(misses) == 0
      ensures log == if ok && Entry(old(log), j, p).None? then old(log) + [EntryPut(j, p, FIRST)] else old(log)
      ensures ok ==> Entry(log, j, p) == if Entry(old(log), j, p).None? then Some(FIRST) else Entry(old(log), j, p)
    {
      misses := [];
      ok := Call();
      if !ok { return; }
      ghost var start := Config(log, cells[j].(taskPc := GetEntry));
      TaskRunOne(n, p, j, start, {});
      misses := [{}];
      if Entry(log, j, p).None? {
        ok := Call();
        if !ok { return; }
        ghost var second := Config(log, cells[j].(taskPc := PutEntry));
        assert TaskRun(n, p, j, start, [{}]) == second;
        TaskRunOne(n, p, j, second, {});
        TaskRunSum(n, p, j, start, [{}], [{}]);
        Append(log, EntryPut(j, p, FIRST));
        log := log + [EntryPut(j, p, FIRST)];
        misses := [{}] + [{}];
      }
    }

    /** Read the status, look up the job, refresh the task and act on the state. */
    method ProceedWithTask(j: nat) returns (r: Outcome, ghost misses: Misses)
      requires Valid() && j < |cells| && p in cells[j].tasks
      modifies this`log, this`cells, this`made
      ensures Valid() && |cells| == |old(cells)| && cells == old(cells)[j := cells[j]] && Failures() >= old(Failures())
      ensures TaskRan(n, p, j, Config(old(log), old(cells[j]).(taskPc := GetStatus)),
                      misses, r != Interrupted, Config(log, cells[j]))
      ensures Failures() >= old(Failures()) + Missed(misses)
      ensures r == Interrupted <==> Failures() > old(Failures()) + Missed(misses)
      ensures Failures() == old(Failures()) && Entry(old(log), j, p).Some? ==>
                StatusPass(n, p, j, Config(old(log), old(cells[j])), Entry(old(log), j, p).value, Config(log, cells[j]))
    {
      r, misses := Interrupted, [];
      ghost var start := Config(log, cells[j].(taskPc := GetStatus));
      TaskRunOne(n, p, j, start, {});
      var ok := Call();
      if !ok { return; }
      var entry := Entry(log, j, p);
      if entry.None? || entry.value.state == Unset { return Error, [{}]; }
      var status := entry.value;
      ok := Call();
      if !ok { return; }
      if cells[j].job.None? { return Error, [{}]; }
      ghost var second := Config(log, cells[j].(taskPc := RefreshTask(status)));
      assert TaskRun(n, p, j, start, [{}]) == second;
      misses := [{}];
      ok := Call();
      if !ok { return; }
      cells := cells[j := cells[j].(tasks := cells[j].tasks[p := status])];
      TaskRunOne(n, p, j, second, {});
      TaskRunSum(n, p, j, start, [{}], [{}]);
      assert TaskRun(n, p, j, start, [{}] + [{}]) == Config(log, cells[j].(taskPc := Act(status)));
      r, misses := ActOn(j, status);
      TaskRanOn(n, p, j, start, [{}] + [{}], misses, r != Interrupted, Config(log, cells[j]));
      misses := [{}] + [{}] + misses;
    }

    /** The switch on the task state. */
    method ActOn(j: nat, status: TaskStatus) returns (r: Outcome, ghost misses: Misses)
      requires Valid() && j < |cells| && status.state != Unset
      modifies this`log, this`cells, this`made
      ensures Valid() && |cells| == |old(cells)| && cells == old(cells)[j := cells[j]] && Failures() >= old(Failures())
      ensures TaskRan(n, p, j, Config(old(log), old(cells[j]).(taskPc := Act(status))),
                      misses, r != Interrupted, Config(log, cells[j]))
      ensures Failures() >= old(Failures()) + Missed(misses)
      ensures r == Interrupted <==> Failures() > old(Failures()) + Missed(misses)
      ensures Failures() == old(Failures()) ==>
                ActPass(n, p, j, Config(old(log), old(cells[j])), status, Config(log, cells[j]))
    {
      match status.state {
        case Preparing => r, misses := Prepare(j, status);
        case Launching => r, misses := Launch(j, status);
        case Generating => r, misses := AwaitGenerator(j, status);
        case Provisioning => r, misses := AwaitProvisioner(j, status);
        case Completed => r, misses := ReclaimVolume(j, status);
        case Failed => r, misses := ReclaimVolume(j, status);
      }
    }

    /** Store a status in etcd, the last step of a pass. */
    method SetStatus(j: nat, status: TaskStatus) returns (r: Outcome, ghost misses: Misses)
      requires Valid() && j < |cells|
      modifies this`log, this`made
      ensures TaskRan(n, p, j, Config(old(log), cells[j].(taskPc := WriteStatus(status))),
                      misses, r != Interrupted, Config(log, cells[j]))
      ensures Failures() >= old(Failures()) && Missed(misses) == 0
      ensures r == if Failures() > old(Failures()) then Interrupted else Requeue
      ensures log == if r == Requeue then old(log) + [EntryPut(j, p, status)] else old(log)
    {
      var ok := Call();
      if !ok { return Interrupted, []; }
      TaskRunOne(n, p, j, Config(log, cells[j].(taskPc := WriteStatus(status))), {});
      log := log + [EntryPut(j, p, status)];
      return Requeue, [{}];
    }

    method Prepare(j: nat, status: TaskStatus) returns (r: Outcome, ghost misses: Misses)
      requires Valid() && j < |cells| && status.state == Preparing
      modifies this`log, this`cells, this`made
      ensures Valid() && |cells| == |old(cells)| && cells == old(cells)[j := cells[j]] && Failures() >= old(Failures())
      ensures TaskRan(n, p, j, Config(old(log), old(cells[j]).(taskPc := Act(status))),
                      misses, r != Interrupted, Config(log, cells[j]))
      ensures Failures() >= old(Failures()) + Missed(misses)
      ensures r == Interrupted <==> Failures() > old(Failures()) + Missed(misses)
      ensures Failures() == old(Failures()) ==>
                PreparingPass(n, p, j, Config(old(log), old(cells[j])), status, Config(log, cells[j]))
    {
      r, misses := Interrupted, [];
      ghost var start := Config(log, cells[j].(taskPc := Act(status)));
      var ok := Call();
      if !ok { return; }
      cells := cells[j := cells[j].(owned := cells[j].owned.(pvc := true))];
      TaskRunOne(n, p, j, start, {});
      assert TaskRun(n, p, j, start, [{}]) == Config(log, cells[j].(taskPc := EnsureService(status)));
      r, misses := PrepareService(j, status);
      TaskRanOn(n, p, j, start, [{}], misses, r != Interrupted, Config(log, cells[j]));
      misses := [{}] + misses;
    }

    /** The service, then the decision on the endpoints. */
    method PrepareService(j: nat, status: TaskStatus) returns (r: Outcome, ghost misses: Misses)
      requires Valid() && j < |cells|
      modifies this`log, this`cells, this`made
      ensures Valid() && |cells| == |old(cells)| && cells == old(cells)[j := cells[j]]
      ensures TaskRan(n, p, j, Config(old(log), old(cells[j]).(taskPc := EnsureService(status))),
                      misses, r != Interrupted, Config(log, cells[j]))
      ensures Failures() >= old(Failures()) + Missed(misses)
      ensures r == Interrupted <==> Failures() > old(Failures()) + Missed(misses)
      ensures var c := old(cells[j]);
              var service := if c.owned.service.Some? then c.owned.service.value else Service(true, []);
              Failures() == old(Failures()) ==>
                && cells[j] == c.(owned := c.owned.(service := Some(service)))
                && EndpointsPass(n, p, j, Config(old(log), c), status, service, log)
    {
      ghost var start := Config(log, cells[j].(taskPc := EnsureService(status)));
      var ok := Call();
      if !ok { return Interrupted, []; }
      var service := if cells[j].owned.service.Some? then cells[j].owned.service.value else Service(true, []);
      cells := cells[j := cells[j].(owned := cells[j].owned.(service := Some(service)))];
      TaskRunOne(n, p, j, start, {});
      assert TaskRun(n, p, j, start, [{}]) == Config(log, cells[j].(taskPc := Collect(status, service)));
      r, misses := CollectEndpoints(j, status, service);
      TaskRanOn(n, p, j, start, [{}], misses, r != Interrupted, Config(log, cells[j]));
      misses := [{}] + misses;
    }

    /** Decide on the endpoints known so far: launch, publish the own endpoint, or wait. */
    method CollectEndpoints(j: nat, status: TaskStatus, service: Service) returns (r: Outcome, ghost misses: Misses)
      requires Valid() && j < |cells|
      modifies this`log, this`made
      ensures TaskRan(n, p, j, Config(old(log), cells[j].(taskPc := Collect(status, service))),
                      misses, r != Interrupted, Config(log, cells[j]))
      ensures Failures() >= old(Failures()) + Missed(misses)
      ensures r == Interrupted <==> Failures() > old(Failures()) + Missed(misses)
      ensures Failures() == old(Failures()) ==>
                EndpointsPass(n, p, j, Config(old(log), cells[j]), status, service, log)
    {
      ghost var start := Config(log, cells[j].(taskPc := Collect(status, service)));
      var ok := Call();
      if !ok { return Interrupted, []; }
      var outcome, next;
      ghost var unread;
      outcome, next, unread := DecideOnEndpoints(j, status, service);
      KnownOfTasks(n, cells[j].tasks);
      if outcome != Requeue { return outcome, [unread]; }
      r, misses := SetStatus(j, next);
      TaskRanOn(n, p, j, start, [unread], misses, r != Interrupted, Config(log, cells[j]));
      misses := [unread] + misses;
    }

    /** Requeue: there is a new status to be stored, Launching once the endpoints of all players are known, else with
        the own endpoint if that is not known. Error: the service is unusable for that. Done: wait. */
    method DecideOnEndpoints(j: nat, status: TaskStatus, service: Service)
      returns (r: Outcome, next: TaskStatus, ghost unread: set<nat>)
      requires Valid() && j < |cells|
      modifies this`made
      ensures TaskRun(n, p, j, Config(log, cells[j].(taskPc := Collect(status, service))), [unread])
              == Config(log, cells[j].(taskPc := if r == Requeue then WriteStatus(next) else TaskIdle))
      ensures var known := Endpoints(TasksForJob(n, cells[j].tasks, unread));
              match r
              case Error => !AllKnown(n, known) && p !in known && Unusable(service)
              case Done => !AllKnown(n, known) && (p in known || (service.loadBalancer && service.ingress == []))
              case Requeue =>
                if AllKnown(n, known) then next == status.(state := Launching)
                else p !in known && Addressed(service) && next == status.(endpoint := Address(service) + ":5000")
              case Interrupted => false
      ensures unread == Unreadable(results, old(made), n) && Failures() == old(Failures()) + |unread|
    {
      var tasks;
      tasks, unread := TasksByPlayer(j);
      var endpoints := CollectKnown(tasks);
      CollectRun(n, p, j, Config(log, cells[j].(taskPc := Collect(status, service))), unread);
      KnownOfAll(n, endpoints);
      if |endpoints| == n { return Requeue, status.(state := Launching), unread; }
      if p in endpoints { return Done, status, unread; }
      r, next := OwnEndpoint(status, service);
    }

    /** The status with the own endpoint, if there is an address. */
    method OwnEndpoint(status: TaskStatus, service: Service) returns (r: Outcome, next: TaskStatus)
      ensures r == if Addressed(service) then Requeue else if Unusable(service) then Error else Done
      ensures r == Requeue ==> next == status.(endpoint := Address(service) + ":5000")
    {
      EndpointIs(service);
      var endpoint := Endpoint(service);
      if endpoint.Err? { return Error, status; }
      if endpoint.value.None? { return Done, status; }
      return Requeue, status.(endpoint := endpoint.value.value + ":" + PORT);
    }

    method Launch(j: nat, status: TaskStatus) returns (r: Outcome, ghost misses: Misses)
      requires Valid() && j < |cells| && status.state == Launching
      modifies this`log, this`cells, this`made
      ensures Valid() && |cells| == |old(cells)| && cells == old(cells)[j := cells[j]] && Failures() >= old(Failures())
      ensures TaskRan(n, p, j, Config(old(log), old(cells[j]).(taskPc := Act(status))),
                      misses, r != Interrupted, Config(log, cells[j]))
      ensures Failures() >= old(Failures()) + Missed(misses)
      ensures r == Interrupted <==> Failures() > old(Failures()) + Missed(misses)
      ensures Failures() == old(Failures()) ==>
                LaunchingPass(n, p, j, Config(old(log), old(cells[j])), status, Config(log, cells[j]))
    {
      ghost var start := Config(log, cells[j].(taskPc := Act(status)));
      r, misses := CreateGeneratorPod(j, status);
      if r != Requeue { return; }
      ghost var more;
      r, more := SetStatus(j, status.(state := Generating));
      TaskRanOn(n, p, j, start, misses, more, r != Interrupted, Config(log, cells[j]));
      misses := misses + more;
    }

    /** Create the generator pod if there is none, with the endpoints known for all players; Requeue: it exists. */
    method CreateGeneratorPod(j: nat, status: TaskStatus) returns (r: Outcome, ghost misses: Misses)
      requires Valid() && j < |cells| && status.state == Launching
      modifies this`cells, this`made
      ensures Valid() && |cells| == |old(cells)| && cells == old(cells)[j := cells[j]] && Failures() >= old(Failures())
      ensures var start := Config(log, old(cells[j]).(taskPc := Act(status)));
              if r == Requeue then
                TaskRun(n, p, j, start, misses)
                == Config(log, cells[j].(taskPc := WriteStatus(status.(state := Generating))))
              else TaskRan(n, p, j, start, misses, r != Interrupted, Config(log, cells[j]))
      ensures Failures() >= old(Failures()) + Missed(misses)
      ensures r == Interrupted <==> Failures() > old(Failures()) + Missed(misses)
      ensures var c, d := old(cells[j]), cells[j];
              Failures() == old(Failures()) ==>
                if c.owned.generator.Some? then r == Requeue && d == c
                else if Full(n, c.tasks) then
                  && r == Requeue && d.owned.generator.Some? && d.owned.generator.value.phase == PodPending
                  && IsEndpointList(n, c.tasks, d.owned.generator.value.endpoints)
                  && d == c.(owned := c.owned.(generator := d.owned.generator, generators := c.owned.generators + 1))
                else r != Requeue && d == c
    {
      ghost var start := Config(log, cells[j].(taskPc := Act(status)));
      if cells[j].owned.generator.Some? {
        TaskRunOne(n, p, j, start, {});
        return Requeue, [{}];
      }
      AllTasks(n, cells[j].tasks);
      KnownEndpoints(n, cells[j].tasks);
      ghost var unread;
      r, misses, unread := CreateMissingPod(j, status);
    }

    method CreateMissingPod(j: nat, status: TaskStatus)
      returns (r: Outcome, ghost misses: Misses, ghost unread: set<nat>)
      requires Valid() && j < |cells| && status.state == Launching && cells[j].owned.generator.None?
      modifies this`cells, this`made
      ensures Valid() && |cells| == |old(cells)| && cells == old(cells)[j := cells[j]]
      ensures var start := Config(log, old(cells[j]).(taskPc := Act(status)));
              if r == Requeue then
                TaskRun(n, p, j, start, misses)
                == Config(log, cells[j].(taskPc := WriteStatus(status.(state := Generating))))
              else TaskRan(n, p, j, start, misses, r != Interrupted, Config(log, cells[j]))
      ensures Failures() == old(Failures()) + |unread| + if r == Interrupted then 1 else 0
      ensures Missed(misses) == if r == Interrupted then 0 else |unread|
      ensures var c, tasks := old(cells[j]), TasksForJob(n, old(cells[j].tasks), unread); var o := c.owned;
              if r == Requeue then
                && |tasks| == n
                && cells[j] == c.(owned := o.(generator := Some(Pod(PodPending, Endpoints(tasks))),
                                              generators := o.generators + 1))
              else (r == Interrupted || |tasks| != n) && cells[j] == c
    {
      ghost var start := Config(log, cells[j].(taskPc := Act(status)));
      var tasks;
      tasks, unread := TasksByPlayer(j);
      LaunchRun(n, p, j, start, unread);
      if |tasks| != n { return Error, [unread], unread; }
      var endpoints := CollectKnown(tasks);
      var ok := NewGeneratorPod(j, status, endpoints);
      if !ok { return Interrupted, [], unread; }
      TaskRunSum(n, p, j, start, [unread], [{}]);
      return Requeue, [unread] + [{}], unread;
    }

    method NewGeneratorPod(j: nat, status: TaskStatus, endpoints: map<nat, string>) returns (ok: bool)
      requires Valid() && j < |cells|
      modifies this`cells, this`made
      ensures Valid() && |cells| == |old(cells)| && cells == old(cells)[j := cells[j]]
      ensures Failures() == old(Failures()) + if ok then 0 else 1
      ensures ok ==>
                TaskRun(n, p, j, Config(log, old(cells[j]).(taskPc := CreateGenerator(status, endpoints))), [{}])
                == Config(log, cells[j].(taskPc := WriteStatus(status.(state := Generating))))
      ensures var c, o := old(cells[j]), old(cells[j].owned);
              var created := o.(generator := Some(Pod(PodPending, endpoints)), generators := o.generators + 1);
              cells[j] == if ok then c.(owned := created) else c
    {
      ok := Call();
      if !ok { return; }
      TaskRunOne(n, p, j, Config(log, cells[j].(taskPc := CreateGenerator(status, endpoints))), {});
      var o := cells[j].owned;
      o := o.(generator := Some(Pod(PodPending, endpoints)), generators := o.generators + 1);
      cells := cells[j := cells[j].(owned := o)];
    }

    method AwaitGenerator(j: nat, status: TaskStatus) returns (r: Outcome, ghost misses: Misses)
      requires Valid() && j < |cells| && status.state == Generating
      modifies this`log, this`cells, this`made
      ensures Valid() && |cells| == |old(cells)| && cells == old(cells)[j := cells[j]] && Failures() >= old(Failures())
      ensures TaskRan(n, p, j, Config(old(log), old(cells[j]).(taskPc := Act(status))),
                      misses, r != Interrupted, Config(log, cells[j]))
      ensures r == Interrupted <==> Failures() > old(Failures())
      ensures Missed(misses) == 0
      ensures r != Interrupted ==>
                GeneratingPass(p, j, Config(old(log), old(cells[j])), status, Config(log, cells[j]))
    {
      r, misses := Interrupted, [];
      ghost var start := Config(log, cells[j].(taskPc := Act(status)));
      TaskRunOne(n, p, j, start, {});
      var ok := Call();
      if !ok { return; }
      if cells[j].owned.generator.None? { return Error, [{}]; }
      var phase := cells[j].owned.generator.value.phase;
      if phase != PodSucceeded && phase != PodFailed { return Done, [{}]; }
      var next := status.(state := Failed);
      misses := [{}];
      if phase == PodSucceeded {
        assert TaskRun(n, p, j, start, [{}]) == Config(log, cells[j].(taskPc := CreateProvisioner(status)));
        ok := Call();
        if !ok { return; }
        CreateProvisionerPod(j, status);
        TaskRunSum(n, p, j, start, [{}], [{}]);
        next := status.(state := Provisioning);
        misses := [{}] + [{}];
      }
      assert TaskRun(n, p, j, start, misses) == Config(log, cells[j].(taskPc := WriteStatus(next)));
      ghost var more;
      r, more := SetStatus(j, next);
      TaskRanOn(n, p, j, start, misses, more, r != Interrupted, Config(log, cells[j]));
      misses := misses + more;
    }

    method CreateProvisionerPod(j: nat, status: TaskStatus)
      requires Valid() && j < |cells|
      modifies this`cells
      ensures Valid() && |cells| == |old(cells)| && cells == old(cells)[j := cells[j]]
      ensures TaskRun(n, p, j, Config(log, old(cells[j]).(taskPc := CreateProvisioner(status))), [{}])
              == Config(log, cells[j].(taskPc := WriteStatus(status.(state := Provisioning))))
      ensures var c, o := old(cells[j]), old(cells[j].owned);
              cells[j] == if o.provisioner.Some? then c
                          else c.(owned := o.(provisioner := Some(PodPending), provisioners := o.provisioners + 1))
    {
      TaskRunOne(n, p, j, Config(log, cells[j].(taskPc := CreateProvisioner(status))), {});
      var o := cells[j].owned;
      if o.provisioner.None? {
        o := o.(provisioner := Some(PodPending), provisioners := o.provisioners + 1);
        cells := cells[j := cells[j].(owned := o)];
      }
    }

    method AwaitProvisioner(j: nat, status: TaskStatus) returns (r: Outcome, ghost misses: Misses)
      requires Valid() && j < |cells| && status.state == Provisioning
      modifies this`log, this`made
      ensures TaskRan(n, p, j, Config(old(log), cells[j].(taskPc := Act(status))),
                      misses, r != Interrupted, Config(log, cells[j]))
      ensures Failures() >= old(Failures()) && Missed(misses) == 0
      ensures r == Interrupted <==> Failures() > old(Failures())
      ensures r != Interrupted ==> ProvisioningPass(p, j, Config(old(log), cells[j]), status, Config(log, cells[j]))
    {
      r, misses := Interrupted, [];
      ghost var start := Config(log, cells[j].(taskPc := Act(status)));
      TaskRunOne(n, p, j, start, {});
      var ok := Call();
      if !ok { return; }
      if cells[j].owned.provisioner.None? { return Error, [{}]; }
      var phase := cells[j].owned.provisioner.value;
      var next := status.(state := if phase == PodSucceeded then Completed else Failed);
      if phase != PodSucceeded && phase != PodFailed {
        return Done, [{}];
      }
      assert TaskRun(n, p, j, start, [{}]) == Config(log, cells[j].(taskPc := WriteStatus(next)));
      r, misses := SetStatus(j, next);
      TaskRanOn(n, p, j, start, [{}], misses, r != Interrupted, Config(log, cells[j]));
      misses := [{}] + misses;
    }

    /** Terminal states: delete the volume claim; an error exactly if it is gone already. */
    method ReclaimVolume(j: nat, status: TaskStatus) returns (r: Outcome, ghost misses: Misses)
      requires Valid() && j < |cells| && Terminal(status.state)
      modifies this`cells, this`made
      ensures Valid() && |cells| == |old(cells)| && cells == old(cells)[j := cells[j]] && Failures() >= old(Failures())
      ensures TaskRan(n, p, j, Config(log, old(cells[j]).(taskPc := Act(status))),
                      misses, r != Interrupted, Config(log, cells[j]))
      ensures (r == Interrupted <==> Failures() > old(Failures())) && Missed(misses) == 0
      ensures r != Interrupted ==> r == if old(cells[j].owned.pvc) then Done else Error
      ensures var c := old(cells[j]); cells[j] == if r == Done then c.(owned := c.owned.(pvc := false)) else c
    {
      var ok := Call();
      if !ok { return Interrupted, []; }
      TaskRunOne(n, p, j, Config(log, cells[j].(taskPc := Act(status))), {});
      if !cells[j].owned.pvc { return Error, [{}]; }
      cells := cells[j := cells[j].(owned := cells[j].owned.(pvc := false))];
      return Done, [{}];
    }

    // The watch loop.

    /** The watcher has finished with the event it is at. */
    method Dispatched()
      requires watcher.Handling?
      modifies this`watcher, this`handled
      ensures View() == old(View()).(vcp := Advance(old(View()).vcp))
      ensures watcher == Handling(old(watcher.base), old(watcher.at) + 1, old(watcher.upto), false)
      ensures handled == if old(watcher.at) == old(handled) then old(handled) + 1 else old(handled)
    {
      handled := if watcher.at == handled then handled + 1 else handled;
      watcher := watcher.(at := watcher.at + 1, created := false);
    }

    /** The event is lost: a handler gave up. */
    method Lost() returns (ghost acts: seq<Action>)
      requires watcher.Handling? && watcher.at < watcher.upto <= |log|
      modifies this`watcher, this`handled
      ensures acts == [Drop(p)] && View() == WatchRun(p, old(View()), acts)
      ensures watcher == Handling(old(watcher.base), old(watcher.at) + 1, old(watcher.upto), false)
      ensures handled == if old(watcher.at) == old(handled) then old(handled) + 1 else old(handled)
    {
      ghost var start := View();
      acts := [Drop(p)];
      OneAction(p, start, Drop(p));
      Dispatched();
    }

    /** Handle the event the watcher is at: the resources of its job change as Handles says. Only a failing API call
        makes a handler lose it. */
    method HandleWatchEvent() returns (ghost acts: seq<Action>)
      requires watcher.Handling? && watcher.at < watcher.upto <= |log| && !watcher.created
      modifies this`cells, this`watcher, this`handled, this`made
      ensures Failures() >= old(Failures()) && WatcherActions(p, acts, Failures() > old(Failures()))
      ensures View() == WatchRun(p, old(View()), acts)
      ensures watcher == Handling(old(watcher.base), old(watcher.at) + 1, old(watcher.upto), false)
      ensures handled == if old(watcher.at) == old(handled) then old(handled) + 1 else old(handled)
      ensures |cells| == |old(cells)|
      ensures var e := log[old(watcher.at)];
              IsRosterEvent(e) && e.job < |cells| ==> cells == old(cells)[e.job := cells[e.job]]
      ensures Failures() == old(Failures()) ==> HandlesEvent(p, log[old(watcher.at)], old(cells), cells)
      ensures Failures() == old(Failures()) + if Drop(p) in acts then 1 else 0
    {
      ghost var start := View();
      var e := log[watcher.at];
      acts := [WatchTick(p)];
      if !IsRosterEvent(e) || e.job >= |cells| {    // not under the watched prefix
        OneAction(p, start, WatchTick(p));
        Dispatched();
        return;
      }
      var ok := Call();
      if !ok {
        acts := Lost();
      } else if e.EntryPut? && e.player != p {
        ok, acts := HandleRemoteTaskUpdate(e.job, e.player, e.status);
      } else {
        HandleOther();
      }
    }

    /** Handle an event other than the put of another player's entry. */
    method HandleOther()
      requires watcher.Handling? && watcher.at < watcher.upto <= |log| && !watcher.created
      requires var e := log[watcher.at]; IsRosterEvent(e) && e.job < |cells| && !(e.EntryPut? && e.player != p)
      modifies this`cells, this`watcher, this`handled
      ensures View() == WatchRun(p, old(View()), [WatchTick(p)])
      ensures watcher == Handling(old(watcher.base), old(watcher.at) + 1, old(watcher.upto), false)
      ensures handled == if old(watcher.at) == old(handled) then old(handled) + 1 else old(handled)
      ensures HandlesEvent(p, log[old(watcher.at)], old(cells), cells)
    {
      ghost var start := View();
      var e := log[watcher.at];
      match e {
        case EntryPut(_, _, _) =>                    // the own entry
        case EntryDelete(j, q) =>
          if q != p {
            cells := cells[j := cells[j].(tasks := cells[j].tasks - {q})];
          }
        case RosterPut(j, spec) =>
          if cells[j].job.None? {
            cells := cells[j := cells[j].(job := Some(Job(spec, JobUnset)))];
          }
        case RosterDelete(j) =>
          cells := cells[j := cells[j].(job := None)];
        case HeadPut(_, _) => assert false;
      }
      OneAction(p, start, WatchTick(p));
      assert cells == start.vcp.cells[e.job := HandleEvent(p, start.vcp.cells[e.job], e)];
      Dispatched();
    }

    /** The entry of another player was put: update its proxy, or create it and then set its status. If an API call
        fails, nothing has changed or the proxy is there without a status; without the job nothing is done. */
    method HandleRemoteTaskUpdate(j: nat, q: nat, st: TaskStatus) returns (ok: bool, ghost acts: seq<Action>)
      requires watcher.Handling? && watcher.at < watcher.upto <= |log| && !watcher.created
      requires log[watcher.at] == EntryPut(j, q, st) && q != p && j < |cells|
      modifies this`cells, this`watcher, this`handled, this`made
      ensures Failures() >= old(Failures()) && WatcherActions(p, acts, Failures() > old(Failures()))
      ensures View() == WatchRun(p, old(View()), acts)
      ensures watcher == Handling(old(watcher.base), old(watcher.at) + 1, old(watcher.upto), false)
      ensures handled == if old(watcher.at) == old(handled) then old(handled) + 1 else old(handled)
      ensures |cells| == |old(cells)| && cells == old(cells)[j := cells[j]]
      ensures var c, d := old(cells[j]), cells[j];
              if ok then c.job.Some? && d == c.(tasks := c.tasks[q := if q in c.tasks then st else FIRST])
              else d == c || (c.job.Some? && q !in c.tasks && d == c.(tasks := c.tasks[q := BLANK]))
      ensures ok <==> Failures() == old(Failures()) && old(cells[j]).job.Some?
      ensures Failures() == old(Failures()) && !ok ==> cells == old(cells)
      ensures Failures() == old(Failures()) + if Drop(p) in acts then 1 else 0
    {
      ghost var start := View();
      var looked := Call();
      ok := false;
      if !looked {
        acts := Lost();
        return;
      }
      acts := [WatchTick(p)];
      OneAction(p, start, WatchTick(p));
      if cells[j].job.None? {                       // the lookup of the job fails even when retried
        assert cells[j := cells[j]] == cells;
      } else if q in cells[j].tasks {
        cells := cells[j := cells[j].(tasks := cells[j].tasks[q := st])];
        ok := true;
      } else {
        ok, acts := CreateProxy(j, q, st);
        return;
      }
      Dispatched();
    }

    /** Create a proxy for a remote task, then set its status, whatever status was put. */
    method CreateProxy(j: nat, q: nat, st: TaskStatus) returns (ok: bool, ghost acts: seq<Action>)
      requires watcher.Handling? && watcher.at < watcher.upto <= |log| && !watcher.created
      requires log[watcher.at] == EntryPut(j, q, st) && q != p && j < |cells|
      requires cells[j].job.Some? && q !in cells[j].tasks
      modifies this`cells, this`watcher, this`handled, this`made
      ensures WatcherActions(p, acts, Failures() > old(Failures())) && View() == WatchRun(p, old(View()), acts)
      ensures watcher == Handling(old(watcher.base), old(watcher.at) + 1, old(watcher.upto), false)
      ensures handled == if old(watcher.at) == old(handled) then old(handled) + 1 else old(handled)
      ensures cells == old(cells)[j := old(cells[j]).(tasks := old(cells[j].tasks)[q := if ok then FIRST else BLANK])]
      ensures Failures() >= old(Failures()) && (ok <==> Failures() == old(Failures()))
      ensures Failures() == old(Failures()) + if Drop(p) in acts then 1 else 0
    {
      ghost var start := View();
      OneAction(p, start, WatchTick(p));
      cells := cells[j := cells[j].(tasks := cells[j].tasks[q := BLANK])];
      watcher := watcher.(created := true);
      ok := Call();
      if ok {
        acts := SetProxyStatus(j, q, st);
        assert start.vcp.cells[j].tasks[q := BLANK][q := FIRST] == start.vcp.cells[j].tasks[q := FIRST];
      } else {
        acts := Lost();
      }
      WatchRunConcat(p, start, [WatchTick(p)], acts);
      acts := [WatchTick(p)] + acts;
    }

    method SetProxyStatus(j: nat, q: nat, st: TaskStatus) returns (ghost acts: seq<Action>)
      requires watcher.Handling? && watcher.at < watcher.upto <= |log| && watcher.created
      requires log[watcher.at] == EntryPut(j, q, st) && q != p && j < |cells|
      modifies this`cells, this`watcher, this`handled
      ensures acts == [WatchTick(p)] && View() == WatchRun(p, old(View()), acts)
      ensures watcher == Handling(old(watcher.base), old(watcher.at) + 1, old(watcher.upto), false)
      ensures handled == if old(watcher.at) == old(handled) then old(handled) + 1 else old(handled)
      ensures cells == old(cells)[j := old(cells[j]).(tasks := old(cells[j].tasks)[q := FIRST])]
    {
      OneAction(p, View(), WatchTick(p));
      cells := cells[j := cells[j].(tasks := cells[j].tasks[q := FIRST])];
      Dispatched();
      return [WatchTick(p)];
    }

    /** Handle the events of a watch response, in order. */
    method HandleEvents() returns (ghost acts: seq<Action>, ghost trace: seq<seq<Cell>>)
      requires watcher.Handling? && watcher.at <= watcher.upto <= |log| && !watcher.created && watcher.at <= handled
      modifies this`cells, this`watcher, this`handled, this`made
      ensures Failures() >= old(Failures()) && WatcherActions(p, acts, Failures() > old(Failures()))
      ensures View() == WatchRun(p, old(View()), acts)
      ensures watcher == Handling(old(watcher.base), old(watcher.upto), old(watcher.upto), false)
      ensures handled >= watcher.at && handled >= old(handled)
      ensures Failures() == old(Failures()) ==>
                HandlesAll(p, log, old(watcher.at), old(watcher.upto), trace)
      ensures trace != [] && trace[0] == old(cells) && trace[|trace| - 1] == cells
    {
      ghost var start, from, base, upto, was := View(), watcher.at, watcher.base, watcher.upto, handled;
      acts, trace := [], [cells];
      while watcher.at < watcher.upto
        invariant watcher.Handling? && from <= watcher.at <= upto <= |log|
        invariant watcher == Handling(base, watcher.at, upto, false)
        invariant was <= handled && watcher.at <= handled && Failures() >= old(Failures())
        invariant WatcherActions(p, acts, Failures() > old(Failures())) && View() == WatchRun(p, start, acts)
        invariant trace != [] && trace[0] == old(cells) && trace[|trace| - 1] == cells
        invariant Failures() == old(Failures()) ==> HandlesAll(p, log, from, watcher.at, trace)
        decreases upto - watcher.at
      {
        acts, trace := HandleNext(start, acts, Failures() > old(Failures()), from, trace);
      }
    }

    /** Handle one more event after a run of the watcher. */
    method HandleNext(ghost start: WatchConfig, ghost acts: seq<Action>, ghost fault: bool,
                      ghost from: nat, ghost trace: seq<seq<Cell>>)
      returns (ghost more: seq<Action>, ghost longer: seq<seq<Cell>>)
      requires watcher.Handling? && watcher.at < watcher.upto <= |log| && !watcher.created
      requires WatcherActions(p, acts, fault) && View() == WatchRun(p, start, acts)
      requires trace != [] && trace[|trace| - 1] == cells && (!fault ==> HandlesAll(p, log, from, watcher.at, trace))
      modifies this`cells, this`watcher, this`handled, this`made
      ensures WatcherActions(p, more, fault || Failures() > old(Failures())) && View() == WatchRun(p, start, more)
      ensures watcher == Handling(old(watcher.base), old(watcher.at) + 1, old(watcher.upto), false)
      ensures handled == if old(watcher.at) == old(handled) then old(handled) + 1 else old(handled)
      ensures Failures() >= old(Failures()) && longer == trace + [cells]
      ensures !fault && Failures() == old(Failures()) ==> HandlesAll(p, log, from, watcher.at, longer)
    {
      ghost var next := HandleWatchEvent();
      WatchRunConcat(p, start, acts, next);
      more, longer := acts + next, trace + [cells];
      if !fault && Failures() == old(Failures()) {
        HandlesMore(p, log, from, watcher.at - 1, trace, cells);
      }
    }

    /** Handle a watch response with the given header revision and store that revision. If it cannot be stored, the
        watch is registered anew from the stored head. */
    method HandleResponse(upto: nat) returns (ok: bool, ghost acts: seq<Action>, ghost trace: seq<seq<Cell>>)
      requires watcher.Waiting? && watcher.at <= handled && Delivers(log, watcher.at, upto)
      modifies this`log, this`cells, this`watcher, this`handled, this`made
      ensures Failures() >= old(Failures()) && WatcherActions(p, acts, Failures() > old(Failures()))
      ensures View() == WatchRun(p, old(View()), acts)
      ensures handled >= upto && handled >= old(handled)
      ensures ok ==> watcher == Waiting(old(watcher.base), upto) && log == old(log) + [HeadPut(p, upto)]
                     && Head(log, p) == upto
      ensures !ok ==> watcher == Reading && log == old(log) && Failures() > old(Failures())
      ensures Failures() == old(Failures()) ==> HandlesAll(p, old(log), old(watcher.at), upto, trace)
      ensures trace != [] && trace[0] == old(cells) && trace[|trace| - 1] == cells
    {
      ghost var start := View();
      Receive(upto);
      acts, trace := HandleEvents();
      WatchRunConcat(p, start, [Action.Receive(p, upto)], acts);
      acts := [Action.Receive(p, upto)] + acts;
      ghost var last;
      ok, last := SetHeadRevision();
      WatchRunConcat(p, start, acts, [last]);
      acts := acts + [last];
    }

    /** A response arrives. */
    method Receive(upto: nat)
      requires watcher.Waiting? && Delivers(log, watcher.at, upto)
      modifies this`watcher
      ensures View() == WatchRun(p, old(View()), [Action.Receive(p, upto)])
      ensures watcher == Handling(old(watcher.base), old(watcher.at), upto, false)
    {
      OneAction(p, View(), Action.Receive(p, upto));
      watcher := Handling(watcher.base, watcher.at, upto, false);
    }

    method SetHeadRevision() returns (ok: bool, ghost act: Action)
      requires watcher.Handling? && watcher.at == watcher.upto
      modifies this`log, this`watcher, this`made
      ensures View() == WatchRun(p, old(View()), [act]) && act == if ok then WatchTick(p) else Reconnect(p)
      ensures ok ==> log == old(log) + [HeadPut(p, old(watcher.upto))] && Head(log, p) == old(watcher.upto)
                     && watcher == Waiting(old(watcher.base), old(watcher.upto))
      ensures !ok ==> watcher == Reading && log == old(log)
      ensures Failures() >= old(Failures()) && (ok <==> Failures() == old(Failures()))
    {
      ghost var start := View();
      ok := Call();
      if !ok {
        OneAction(p, start, Reconnect(p));
        watcher := Reading;
        return false, Reconnect(p);
      }
      OneAction(p, start, WatchTick(p));
      Append(log, HeadPut(p, watcher.upto));
      log := log + [HeadPut(p, watcher.upto)];
      watcher := Waiting(watcher.base, watcher.upto);
      return true, WatchTick(p);
    }

    /** One round of the watch loop: register a watch from the stored head, then handle responses until the watch or
        the storing of the head fails. Every event up to the last response was dispatched. */
    method HandleWatchEvents(responses: seq<nat>) returns (served: nat, ghost acts: seq<Action>)
      requires watcher.Reading? && Head(log, p) <= handled && Responses(log, Head(log, p), responses)
      modifies this`log, this`cells, this`watcher, this`handled, this`made
      ensures Failures() >= old(Failures()) && WatcherActions(p, acts, Failures() > old(Failures()))
      ensures View() == WatchRun(p, old(View()), acts)
      ensures served <= |responses| && handled >= old(handled)
      ensures served > 0 ==> handled >= responses[served - 1]
      ensures watcher.Waiting? ==> served == |responses|
      ensures Failures() == old(Failures()) ==> watcher.Waiting?
    {
      var ok := Call();
      if !ok { return 0, []; }
      ghost var start, more := View(), [];
      Register();
      served, more := ServeWatch(responses);
      TickFirst(p, start, more, Failures() > old(Failures()));
      acts := [WatchTick(p)] + more;
    }

    /** Register a watch from the stored head. */
    method Register()
      requires watcher.Reading?
      modifies this`watcher
      ensures View() == WatchRun(p, old(View()), [WatchTick(p)])
      ensures watcher == Waiting(Head(log, p), Head(log, p))
    {
      OneAction(p, View(), WatchTick(p));
      watcher := Waiting(Head(log, p), Head(log, p));
    }

    method ServeWatch(responses: seq<nat>) returns (served: nat, ghost acts: seq<Action>)
      requires watcher.Waiting? && watcher.at <= handled && Responses(log, watcher.at, responses)
      modifies this`log, this`cells, this`watcher, this`handled, this`made
      ensures Failures() >= old(Failures()) && WatcherActions(p, acts, Failures() > old(Failures()))
      ensures View() == WatchRun(p, old(View()), acts)
      ensures served <= |responses| && handled >= old(handled)
      ensures served > 0 ==> handled >= responses[served - 1]
      ensures watcher.Waiting? ==> served == |responses|
      ensures Failures() == old(Failures()) ==> watcher.Waiting?
    {
      ghost var start, first, at, was := View(), log, watcher.at, handled;
      acts, served := [], 0;
      while served < |responses|
        invariant served <= |responses| && was <= handled && Failures() >= old(Failures()) && first <= log
        invariant WatcherActions(p, acts, Failures() > old(Failures())) && View() == WatchRun(p, start, acts)
        invariant watcher.Waiting? && watcher.at == Reached(at, responses, served) <= handled
      {
        var ok, got;
        ok, got, acts := NextResponse(responses[served], first, start, acts, Failures() > old(Failures()));
        served := if got then served + 1 else served;
        if !ok { return; }
      }
    }

    /** Wait for one more response after a run of the watcher, and handle it unless the watch fails. */
    method NextResponse(upto: nat, ghost first: seq<Event>, ghost start: WatchConfig, ghost acts: seq<Action>,
                        ghost fault: bool)
      returns (ok: bool, got: bool, ghost more: seq<Action>)
      requires watcher.Waiting? && watcher.at <= handled && first <= log && Delivers(first, watcher.at, upto)
      requires WatcherActions(p, acts, fault) && View() == WatchRun(p, start, acts)
      modifies this`log, this`cells, this`watcher, this`handled, this`made
      ensures WatcherActions(p, more, fault || Failures() > old(Failures())) && View() == WatchRun(p, start, more)
      ensures Failures() >= old(Failures()) && handled >= old(handled) && (got ==> handled >= upto)
      ensures ok ==> got && watcher.Waiting? && watcher.at == upto && first <= log
      ensures !ok ==> watcher == Reading && Failures() > old(Failures())
    {
      got := Call();
      if !got {
        more := WatchFailed(start, acts, fault);
        return false, got, more;
      }
      StillDelivers(first, log, watcher.at, upto);
      ok, more := HandleNextResponse(upto, start, acts, fault);
    }

    /** Handle one more response after a run of the watcher. */
    method HandleNextResponse(upto: nat, ghost start: WatchConfig, ghost acts: seq<Action>, ghost fault: bool)
      returns (ok: bool, ghost more: seq<Action>)
      requires watcher.Waiting? && watcher.at <= handled && Delivers(log, watcher.at, upto)
      requires WatcherActions(p, acts, fault) && View() == WatchRun(p, start, acts)
      modifies this`log, this`cells, this`watcher, this`handled, this`made
      ensures WatcherActions(p, more, fault || Failures() > old(Failures())) && View() == WatchRun(p, start, more)
      ensures Failures() >= old(Failures()) && handled >= upto && handled >= old(handled)
      ensures ok ==> watcher.Waiting? && watcher.at == upto && old(log) <= log
      ensures !ok ==> watcher == Reading && Failures() > old(Failures())
    {
      ghost var trace;
      ok, more, trace := HandleResponse(upto);
      WatchRunConcat(p, start, acts, more);
      more := acts + more;
    }

    method WatchFailed(ghost start: WatchConfig, ghost acts: seq<Action>, ghost fault: bool)
      returns (ghost more: seq<Action>)
      requires WatcherActions(p, acts, fault) && View() == WatchRun(p, start, acts)
      modifies this`watcher
      ensures WatcherActions(p, more, true) && View() == WatchRun(p, start, more) && watcher == Reading
    {
      WatchRunMore(p, start, acts, Reconnect(p));
      watcher := Reading;
      more := acts + [Reconnect(p)];
    }
  }

  // Calls of the operator are runs of the whole system, so everything proved of runs holds after every call.

  lemma RunMore(n: nat, m: nat, acts: seq<Action>, a: Action)
    ensures Run(n, m, acts + [a]) == Next(n, m, Run(n, m, acts), a)
  {
    assert (acts + [a])[..|acts|] == acts;
  }

  /** The state with the log and one cell replaced. */
  function WithConfig(s: State, p: nat, j: nat, c: Config): State
    requires p < |s.vcps| && j < |s.vcps[p].cells|
  {
    State(c.log, s.vcps[p := s.vcps[p].(cells := s.vcps[p].cells[j := c.cell])])
  }

  lemma NextConfig(n: nat, m: nat, s: State, p: nat, j: nat, c: Config, a: Action)
    requires Shape(n, m, s) && p < n && j < m && IsCellAction(a) && PlayerOf(a) == p && a.job == j
    ensures var eff := CellStep(n, c.log, p, j, c.cell, a);
            Next(n, m, WithConfig(s, p, j, c), a) == WithConfig(s, p, j, Config(c.log + eff.puts, eff.cell))
  {
    var cells := s.vcps[p].cells;
    var eff := CellStep(n, c.log, p, j, c.cell, a);
    var v := s.vcps[p].(cells := cells[j := c.cell]);
    assert v.(cells := v.cells[j := eff.cell]) == s.vcps[p].(cells := cells[j := eff.cell]);
    assert s.vcps[p := v][p] == v;
  }

  lemma SameConfig(n: nat, m: nat, s: State, p: nat, j: nat)
    requires Shape(n, m, s) && p < n && j < m
    ensures WithConfig(s, p, j, Config(s.log, s.vcps[p].cells[j])) == s
  {
    assert s.vcps[p].cells[j := s.vcps[p].cells[j]] == s.vcps[p].cells;
    assert s.vcps[p := s.vcps[p]] == s.vcps;
  }

  lemma NextVcp(n: nat, m: nat, s: State, p: nat, w: WatchConfig, a: Action)
    requires Shape(n, m, s) && p < n && |w.vcp.cells| == m && !IsCellAction(a) && PlayerOf(a) == p
    ensures var eff := OperatorStep(w.log, p, w.vcp, a);
            && Next(n, m, State(w.log, s.vcps[p := w.vcp]), a) == State(w.log + eff.puts, s.vcps[p := eff.vcp])
            && |eff.vcp.cells| == m
  {
    var t := State(w.log, s.vcps[p := w.vcp]);
    assert Shape(n, m, t);
    var u := Next(n, m, t, a);
    assert u.vcps[p] == OperatorStep(w.log, p, w.vcp, a).vcp;
  }

  lemma JobRunLast(n: nat, p: nat, j: nat, s: Config, k: nat)
    ensures var c := JobRun(n, p, j, s, k); var eff := JobStep(n, c.log, p, j, c.cell);
            JobRun(n, p, j, s, k + 1) == Config(c.log + eff.puts, eff.cell)
  {
    JobRunSum(n, p, j, s, k, 1);
  }

  lemma {:induction false} JobTicksAreRuns(n: nat, m: nat, acts: seq<Action>, p: nat, j: nat, k: nat)
    returns (more: seq<Action>)
    requires p < n && j < m
    ensures var s := Run(n, m, acts);
            Run(n, m, acts + more) == WithConfig(s, p, j, JobRun(n, p, j, Config(s.log, s.vcps[p].cells[j]), k))
    decreases k
  {
    more := [];
    var s := Run(n, m, acts);
    if k == 0 {
      SameConfig(n, m, s, p, j);
      assert acts + [] == acts;
    } else {
      more := JobTicksAreRuns(n, m, acts, p, j, k - 1);
      var from := Config(s.log, s.vcps[p].cells[j]);
      JobRunLast(n, p, j, from, k - 1);
      RunMore(n, m, acts + more, JobTick(p, j));
      NextConfig(n, m, s, p, j, JobRun(n, p, j, from, k - 1), JobTick(p, j));
      assert acts + (more + [JobTick(p, j)]) == (acts + more) + [JobTick(p, j)];
      more := more + [JobTick(p, j)];
    }
  }

  lemma JobCallIsRun(n: nat, m: nat, acts: seq<Action>, p: nat, j: nat, k: nat, done: bool, to: Config)
    returns (more: seq<Action>)
    requires p < n && j < m
    requires var s := Run(n, m, acts); JobRan(n, p, j, Config(s.log, s.vcps[p].cells[j]), k, done, to)
    ensures Run(n, m, acts + more) == WithConfig(Run(n, m, acts), p, j, to)
  {
    more := JobTicksAreRuns(n, m, acts, p, j, k);
    RunMore(n, m, acts + more, JobAbort(p, j));
    var s := Run(n, m, acts);
    NextConfig(n, m, s, p, j, JobRun(n, p, j, Config(s.log, s.vcps[p].cells[j]), k), JobAbort(p, j));
    assert to.log + [] == to.log;
    assert acts + (more + [JobAbort(p, j)]) == (acts + more) + [JobAbort(p, j)];
    more := more + [JobAbort(p, j)];
  }

  lemma {:induction false} TaskTicksAreRuns(n: nat, m: nat, acts: seq<Action>, p: nat, j: nat, misses: Misses)
    returns (more: seq<Action>)
    requires p < n && j < m
    ensures var s := Run(n, m, acts);
            Run(n, m, acts + more) == WithConfig(s, p, j, TaskRun(n, p, j, Config(s.log, s.vcps[p].cells[j]), misses))
    decreases |misses|
  {
    more := [];
    var s := Run(n, m, acts);
    if misses == [] {
      SameConfig(n, m, s, p, j);
      assert acts + [] == acts;
    } else {
      var init, u := misses[..|misses| - 1], misses[|misses| - 1];
      more := TaskTicksAreRuns(n, m, acts, p, j, init);
      var from := Config(s.log, s.vcps[p].cells[j]);
      var tick := TaskTick(p, j, u);
      OneTaskTick(n, m, acts + more, s, p, j, from, init, u);
      assert misses == init + [u] && acts + (more + [tick]) == (acts + more) + [tick];
      more := more + [tick];
    }
  }

  lemma OneTaskTick(n: nat, m: nat, acts: seq<Action>, s: State, p: nat, j: nat,
                    from: Config, init: Misses, u: set<nat>)
    requires p < n && j < m && Shape(n, m, s) && Run(n, m, acts) == WithConfig(s, p, j, TaskRun(n, p, j, from, init))
    ensures Run(n, m, acts + [TaskTick(p, j, u)]) == WithConfig(s, p, j, TaskRun(n, p, j, from, init + [u]))
  {
    var c := TaskRun(n, p, j, from, init);
    TaskRunSum(n, p, j, from, init, [u]);
    TaskRunOne(n, p, j, c, u);
    RunMore(n, m, acts, TaskTick(p, j, u));
    NextConfig(n, m, s, p, j, c, TaskTick(p, j, u));
  }

  lemma TaskCallIsRun(n: nat, m: nat, acts: seq<Action>, p: nat, j: nat, misses: Misses, done: bool, to: Config)
    returns (more: seq<Action>)
    requires p < n && j < m
    requires var s := Run(n, m, acts); TaskRan(n, p, j, Config(s.log, s.vcps[p].cells[j]), misses, done, to)
    ensures Run(n, m, acts + more) == WithConfig(Run(n, m, acts), p, j, to)
  {
    more := TaskTicksAreRuns(n, m, acts, p, j, misses);
    RunMore(n, m, acts + more, TaskAbort(p, j));
    var s := Run(n, m, acts);
    NextConfig(n, m, s, p, j, TaskRun(n, p, j, Config(s.log, s.vcps[p].cells[j]), misses), TaskAbort(p, j));
    assert to.log + [] == to.log;
    assert acts + (more + [TaskAbort(p, j)]) == (acts + more) + [TaskAbort(p, j)];
    more := more + [TaskAbort(p, j)];
  }

  lemma {:induction false} WatchCallIsRun(n: nat, m: nat, acts: seq<Action>, p: nat, more: seq<Action>)
    requires p < n && WatcherActions(p, more, true)
    ensures var s := Run(n, m, acts); var w := WatchRun(p, WatchConfig(s.log, s.vcps[p]), more);
            Run(n, m, acts + more) == State(w.log, s.vcps[p := w.vcp]) && |w.vcp.cells| == m
    decreases |more|
  {
    var s := Run(n, m, acts);
    if more == [] {
      assert acts + more == acts && s.vcps[p := s.vcps[p]] == s.vcps;
    } else {
      var init, a := more[..|more| - 1], more[|more| - 1];
      var from := WatchConfig(s.log, s.vcps[p]);
      assert more == init + [a];
      forall b | b in init ensures b in more {}
      assert WatcherActions(p, init, true) && a in more;
      WatchCallIsRun(n, m, acts, p, init);
      assert acts + more == (acts + init) + [a];
      WatchRunMore(p, from, init, a);
      OneWatchAction(n, m, acts + init, s, p, WatchRun(p, from, init), a);
    }
  }

  lemma OneWatchAction(n: nat, m: nat, acts: seq<Action>, s: State, p: nat, w: WatchConfig, a: Action)
    requires p < n && Shape(n, m, s) && |w.vcp.cells| == m && !IsCellAction(a) && PlayerOf(a) == p
    requires Run(n, m, acts) == State(w.log, s.vcps[p := w.vcp])
    ensures var eff := OperatorStep(w.log, p, w.vcp, a);
            && Run(n, m, acts + [a]) == State(w.log + eff.puts, s.vcps[p := eff.vcp]) && |eff.vcp.cells| == m
  {
    RunMore(n, m, acts, a);
    NextVcp(n, m, s, p, w, a);
  }
}

/** Runs of the scheduler. A reconcile first lists the active jobs, later reads the telemetry, later creates a job;
    between these steps jobs advance, chunks are activated, tuples are consumed and finished jobs are deleted. Any
    number of schedulers is served, one reconcile at a time. */
module SchedulerRuns {
  import opened Wrappers
  import opened EtcdLog
  import opened RosterModel
  import opened Lottery
  import opened Filters
  import opened Scheduler

  /** A job with the state of its tuple chunk in Castor. */
  datatype Work = Work(spec: JobSpec, state: JobState, activated: bool)

  datatype Pc =
    | Rest
    | Listed(k: nat, active: seq<JobSpec>)
    | Fetched(k: nat, active: seq<JobSpec>, telemetry: seq<Metric>)

  /** castor: the available tuples by type, none if absent. */
  datatype World = World(jobs: seq<Work>, castor: map<string, int>, pc: Pc)

  datatype Config = Config(schedulers: seq<SchedulerSpec>, generators: seq<Generator>)

  datatype Step =
    | ListJobs(k: nat)
    | FetchTelemetry(telemetry: seq<Metric>)
    | CreateJob(spec: JobSpec)
    | GiveUp
    | ActivateChunk(i: nat)
    | Advance(i: nat, state: JobState)
    | Delete(i: nat)
    | Consume(tupleType: string, amount: nat)

  predicate Done(w: Work) {
    w.state == JobCompleted || w.state == JobFailed
  }

  function Available(castor: map<string, int>, t: string): int {
    if t in castor then castor[t] else 0
  }

  function ActiveSpecs(jobs: seq<Work>): seq<JobSpec> {
    if jobs == [] then []
    else
      var last := jobs[|jobs| - 1];
      var active := ActiveSpecs(jobs[..|jobs| - 1]);
      if Done(last) then active else active + [last.spec]
  }

  predicate IsTelemetry(telemetry: seq<Metric>, castor: map<string, int>) {
    && (forall i, k :: 0 <= i < k < |telemetry| ==> telemetry[i].tupleType != telemetry[k].tupleType)
    && (forall m :: m in telemetry ==> m.available == Available(castor, m.tupleType))
  }

  /** Job states only move forward, and a job completes only after its chunk was activated. */
  predicate MayAdvance(w: Work, state: JobState) {
    !Done(w) && (state == JobCompleted ==> w.activated)
  }

  /** What happens to jobs, chunks and tuples; a step that is not possible changes nothing. */
  function JobNext(s: World, a: Step): World {
    match a
    case ActivateChunk(i) =>
      if i < |s.jobs| && !Done(s.jobs[i]) && !s.jobs[i].activated then
        var w := s.jobs[i];
        var t := w.spec.tupleType;
        s.(jobs := s.jobs[i := w.(activated := true)], castor := s.castor[t := Available(s.castor, t) + w.spec.count])
      else s
    case Advance(i, state) =>
      if i < |s.jobs| && MayAdvance(s.jobs[i], state) then s.(jobs := s.jobs[i := s.jobs[i].(state := state)]) else s
    case Delete(i) =>
      if i < |s.jobs| && Done(s.jobs[i]) then s.(jobs := s.jobs[..i] + s.jobs[i + 1..]) else s
    case Consume(t, amount) => s.(castor := s.castor[t := Available(s.castor, t) - amount])
    case _ => s
  }

  /** One step. */
  ghost function Next(c: Config, s: World, a: Step): World {
    match a
    case ListJobs(k) =>
      var active := ActiveSpecs(s.jobs);
      if s.pc == Rest && k < |c.schedulers| && |active| < c.schedulers[k].concurrency
      then s.(pc := Listed(k, active)) else s
    case FetchTelemetry(telemetry) =>
      if s.pc.Listed? && IsTelemetry(telemetry, s.castor) then s.(pc := Fetched(s.pc.k, s.pc.active, telemetry)) else s
    case CreateJob(spec) =>
      if s.pc.Fetched? && s.pc.k < |c.schedulers|
         && Chosen(c.schedulers[s.pc.k], c.generators, s.pc.telemetry, s.pc.active, spec)
      then s.(jobs := s.jobs + [Work(spec, JobUnset, false)], pc := Rest) else s
    case GiveUp => s.(pc := Rest)
    case _ => JobNext(s, a)
  }

  ghost function After(c: Config, s: World, steps: seq<Step>): World {
    if steps == [] then s else Next(c, After(c, s, steps[..|steps| - 1]), steps[|steps| - 1])
  }

  // Sums over jobs.

  function SumOf(jobs: seq<Work>, f: Work -> int): int {
    if jobs == [] then 0 else SumOf(jobs[..|jobs| - 1], f) + f(jobs[|jobs| - 1])
  }

  lemma {:induction false} SumConcat(a: seq<Work>, b: seq<Work>, f: Work -> int)
    ensures SumOf(a + b, f) == SumOf(a, f) + SumOf(b, f)
  {
    if b == [] {
      assert a + b == a;
    } else {
      assert (a + b)[..|a + b| - 1] == a + b[..|b| - 1];
      SumConcat(a, b[..|b| - 1], f);
    }
  }

  lemma SumAppend(jobs: seq<Work>, w: Work, f: Work -> int)
    ensures SumOf(jobs + [w], f) == SumOf(jobs, f) + f(w)
  {
    assert (jobs + [w])[..|jobs|] == jobs;
  }

  /** Replacing or deleting one job changes a sum by that job's share. */
  lemma SumAt(jobs: seq<Work>, i: nat, w: Work, f: Work -> int)
    requires i < |jobs|
    ensures SumOf(jobs[i := w], f) == SumOf(jobs, f) - f(jobs[i]) + f(w)
    ensures SumOf(jobs[..i] + jobs[i + 1..], f) == SumOf(jobs, f) - f(jobs[i])
  {
    SumAround(jobs, i, f);
    SumAround(jobs[i := w], i, f);
    SumConcat(jobs[..i], jobs[i + 1..], f);
    assert jobs[i := w][..i] == jobs[..i] && jobs[i := w][i + 1..] == jobs[i + 1..];
  }

  lemma SumAround(jobs: seq<Work>, i: nat, f: Work -> int)
    requires i < |jobs|
    ensures SumOf(jobs, f) == SumOf(jobs[..i], f) + f(jobs[i]) + SumOf(jobs[i + 1..], f)
  {
    var before, w, behind := jobs[..i], jobs[i], jobs[i + 1..];
    assert jobs == before + [w] + behind;
    SumAppend(before, w, f);
    SumConcat(before + [w], behind, f);
  }

  function One(): Work -> int {
    w => if Done(w) then 0 else 1
  }

  /** The tuples of a type that a job will still make available. */
  function Share(t: string): Work -> int {
    w => if !Done(w) && !w.activated && w.spec.tupleType == t then w.spec.count else 0
  }

  function Pending(jobs: seq<Work>, t: string): int {
    SumOf(jobs, Share(t))
  }

  /** Available tuples plus those of active jobs whose chunk is not activated yet. */
  function Stock(s: World, t: string): int {
    Available(s.castor, t) + Pending(s.jobs, t)
  }

  lemma {:induction false} CountActive(jobs: seq<Work>)
    ensures |ActiveSpecs(jobs)| == SumOf(jobs, One())
  {
    if jobs != [] {
      CountActive(jobs[..|jobs| - 1]);
    }
  }

  lemma {:induction false} ListedJobs(jobs: seq<Work>, t: string)
    requires CountsNatural(jobs)
    ensures InFlight(ActiveSpecs(jobs), t) >= Pending(jobs, t)
  {
    if jobs != [] {
      var init, last := jobs[..|jobs| - 1], jobs[|jobs| - 1];
      assert jobs == init + [last];
      ListedJobs(init, t);
      var active := ActiveSpecs(init);
      assert (active + [last.spec])[..|active|] == active;
    }
  }

  // A call of the reconciler is a run.

  /** The jobs of a world are the given resources. */
  ghost predicate Represents(items: seq<JobItem>, jobs: seq<Work>) {
    && |items| == |jobs|
    && forall i :: 0 <= i < |jobs| ==> jobs[i].spec == items[i].spec && jobs[i].state == items[i].state
  }

  lemma {:induction false} AfterConcat(c: Config, s: World, a: seq<Step>, b: seq<Step>)
    ensures After(c, s, a + b) == After(c, After(c, s, a), b)
  {
    if b == [] {
      assert a + b == a;
    } else {
      AfterConcat(c, s, a, b[..|b| - 1]);
      assert (a + b)[..|a + b| - 1] == a + b[..|b| - 1];
    }
  }

  lemma AfterOne(c: Config, s: World, a: Step)
    ensures After(c, s, [a]) == Next(c, s, a)
  {
    assert [a][..0] == [];
  }

  lemma {:induction false} SameActive(items: seq<JobItem>, jobs: seq<Work>)
    requires Represents(items, jobs)
    ensures ActiveSpecs(jobs) == Specs(Active(items))
  {
    if jobs != [] {
      SameActive(items[..|items| - 1], jobs[..|jobs| - 1]);
      assert Active(items[..|items| - 1]) + [] == Active(items[..|items| - 1]);
    }
  }

  /** Deleting the resources of some ended jobs, from the end; the jobs in rest are others. */
  lemma {:induction false} DeletesAreRun(c: Config, s: World, items: seq<JobItem>, jobs: seq<Work>, rest: seq<Work>,
                                         names: set<string>)
    returns (steps: seq<Step>, kept: seq<Work>)
    requires s.jobs == jobs + rest && Represents(items, jobs)
    requires forall j :: j in items && j.name in names ==> j.state == JobCompleted || j.state == JobFailed
    ensures After(c, s, steps) == s.(jobs := kept + rest) && Represents(Without(items, names), kept)
    ensures forall a :: a in steps ==> a.Delete?
    decreases |items|
  {
    steps, kept := [], jobs;
    if items != [] {
      var n := |items| - 1;
      var init, last := items[..n], items[n];
      assert items == init + [last] && jobs == jobs[..n] + [jobs[n]];
      assert Without(init, names) + [] == Without(init, names);
      if last.name in names {
        var first := Next(c, s, Delete(n));
        assert first == s.(jobs := jobs[..n] + rest);
        AfterOne(c, s, Delete(n));
        steps, kept := DeletesAreRun(c, first, init, jobs[..n], rest, names);
        AfterConcat(c, s, [Delete(n)], steps);
        steps := [Delete(n)] + steps;
      } else {
        assert s.jobs == jobs[..n] + ([jobs[n]] + rest);
        steps, kept := DeletesAreRun(c, s, init, jobs[..n], [jobs[n]] + rest, names);
        assert kept + ([jobs[n]] + rest) == (kept + [jobs[n]]) + rest;
        kept := kept + [jobs[n]];
      }
    }
  }

  /** The part after the clean-up: list the active jobs, fetch the telemetry, create the job. */
  lemma CreationIsRun(c: Config, s: World, k: nat, telemetry: seq<Metric>, spec: JobSpec)
    requires s.pc == Rest && k < |c.schedulers| && |ActiveSpecs(s.jobs)| < c.schedulers[k].concurrency
    requires IsTelemetry(telemetry, s.castor)
    requires Chosen(c.schedulers[k], c.generators, telemetry, ActiveSpecs(s.jobs), spec)
    ensures After(c, s, [ListJobs(k), FetchTelemetry(telemetry), CreateJob(spec)])
            == s.(jobs := s.jobs + [Work(spec, JobUnset, false)])
  {
    var listed := Next(c, s, ListJobs(k));
    var fetched := Next(c, listed, FetchTelemetry(telemetry));
    AfterOne(c, s, ListJobs(k));
    AfterConcat(c, s, [ListJobs(k)], [FetchTelemetry(telemetry)]);
    AfterOne(c, listed, FetchTelemetry(telemetry));
    AfterConcat(c, s, [ListJobs(k)] + [FetchTelemetry(telemetry)], [CreateJob(spec)]);
    AfterOne(c, fetched, CreateJob(spec));
    assert [ListJobs(k)] + [FetchTelemetry(telemetry)] + [CreateJob(spec)]
           == [ListJobs(k), FetchTelemetry(telemetry), CreateJob(spec)];
  }

  /** Every call of the reconciler is a run: the deletions and, if a job was created, listing, fetching and creating.
      It ends in the resources that the call leaves, with the new job not activated. */
  lemma ReconcileIsRun(c: Config, s: World, k: nat, telemetry: seq<Metric>, now: int,
                       items: seq<JobItem>, deleted: set<string>, r: Outcome, after: seq<JobItem>)
    returns (steps: seq<Step>)
    requires s.pc == Rest && k < |c.schedulers| && Represents(items, s.jobs) && UniqueNames(items)
    requires IsTelemetry(telemetry, s.castor)
    requires Reconciled(c.schedulers[k], c.generators, telemetry, now, items, deleted, r, after)
    ensures var u := After(c, s, steps);
            && u.pc == Rest && u.castor == s.castor && Represents(after, u.jobs)
            && (r.Created? ==> u.jobs != [] && !u.jobs[|u.jobs| - 1].activated)
    ensures forall a :: a in steps ==> a.Delete? || a.ListJobs? || a.FetchTelemetry? || a.CreateJob?
  {
    OnlyFinishedNames(items, deleted, c.schedulers[k].ttl, now);
    var kept;
    steps, kept := DeletesAreRun(c, s, items, s.jobs, [], deleted);
    assert s.jobs + [] == s.jobs && kept + [] == kept;
    if r.Created? {
      var mid := After(c, s, steps);
      SameActive(Without(items, deleted), kept);
      WithoutKeepsActive(items, deleted);
      CreationIsRun(c, mid, k, telemetry, r.job.spec);
      var creation := [ListJobs(k), FetchTelemetry(telemetry), CreateJob(r.job.spec)];
      AfterConcat(c, s, steps, creation);
      steps := steps + creation;
    }
  }

  // What the other steps do.

  /** A reconcile can only list the jobs while there are fewer active ones than its scheduler allows, and fetch what the
      telemetry is at that time; it keeps what it has read until it ends, also if it gives up. */
  lemma ReadsOfReconcile(c: Config, s: World, k: nat, telemetry: seq<Metric>)
    requires k < |c.schedulers|
    ensures s.pc == Rest ==>
              Next(c, s, ListJobs(k)).pc
              == if |ActiveSpecs(s.jobs)| < c.schedulers[k].concurrency then Listed(k, ActiveSpecs(s.jobs)) else Rest
    ensures s.pc.Listed? ==>
              Next(c, s, FetchTelemetry(telemetry)).pc
              == if IsTelemetry(telemetry, s.castor) then Fetched(s.pc.k, s.pc.active, telemetry) else s.pc
    ensures Next(c, s, GiveUp).pc == Rest
    ensures forall a :: a in {ListJobs(k), FetchTelemetry(telemetry), GiveUp} ==>
              Next(c, s, a).jobs == s.jobs && Next(c, s, a).castor == s.castor
  {
  }

  /** Activating a chunk moves the tuples of its job from pending to available, once. */
  lemma ActivationMoves(s: World, i: nat, t: string)
    requires i < |s.jobs|
    ensures var w, u := s.jobs[i], JobNext(s, ActivateChunk(i));
            if Done(w) || w.activated then u == s
            else
              var x := if w.spec.tupleType == t then w.spec.count else 0;
              && u.jobs == s.jobs[i := Work(w.spec, w.state, true)] && u.pc == s.pc
              && Available(u.castor, t) == Available(s.castor, t) + x
              && Pending(u.jobs, t) == Pending(s.jobs, t) - x
  {
    SumAt(s.jobs, i, s.jobs[i].(activated := true), Share(t));
  }

  /** A job ends once, as Completed only with an activated chunk; only ended jobs are deleted; consumption takes
      tuples. */
  lemma StepsOfOthers(s: World, i: nat, state: JobState, tupleType: string, amount: nat, t: string)
    requires i < |s.jobs|
    ensures var w, u := s.jobs[i], JobNext(s, Advance(i, state));
            if w.state == JobCompleted || w.state == JobFailed || (state == JobCompleted && !w.activated) then u == s
            else u == World(s.jobs[i := Work(w.spec, state, w.activated)], s.castor, s.pc)
    ensures var w, u := s.jobs[i], JobNext(s, Delete(i));
            if w.state == JobCompleted || w.state == JobFailed
            then u == World(s.jobs[..i] + s.jobs[i + 1..], s.castor, s.pc) else u == s
    ensures var u := JobNext(s, Consume(tupleType, amount));
            && u.jobs == s.jobs && u.pc == s.pc
            && Available(u.castor, t) == Available(s.castor, t) - if t == tupleType then amount else 0
  {
  }

  // The invariants.

  predicate CountsNatural(jobs: seq<Work>) {
    forall w :: w in jobs ==> w.spec.count >= 0
  }

  ghost predicate BatchesNatural(generators: seq<Generator>) {
    forall g, x :: g in generators && x in g.supports ==> x.batchSize >= 0
  }

  ghost predicate ConcurrencyLimit(c: Config, limit: int) {
    forall k :: 0 <= k < |c.schedulers| ==> c.schedulers[k].concurrency <= limit
  }

  /** The configured thresholds and batch sizes of a type stay within b. */
  ghost predicate StockLimit(c: Config, t: string, b: int) {
    forall k, x, g, y ::
      (0 <= k < |c.schedulers| && x in c.schedulers[k].policies && g in c.generators && y in g.supports
       && x.tupleType == t == y.tupleType) ==> x.threshold - 1 + y.batchSize <= b
  }

  /** Since the active jobs were listed there have not become more of them. */
  ghost predicate CountInv(c: Config, s: World, limit: int) {
    && SumOf(s.jobs, One()) <= limit
    && (!s.pc.Rest? ==> s.pc.k < |c.schedulers|
                        && SumOf(s.jobs, One()) <= |s.pc.active| < c.schedulers[s.pc.k].concurrency)
  }

  /** What a reconcile in progress has read bounds the stock there is now. */
  ghost predicate StockInv(s: World, t: string, b: int) {
    && CountsNatural(s.jobs) && Stock(s, t) <= b
    && match s.pc
       case Rest => true
       case Listed(_, active) => Pending(s.jobs, t) <= InFlight(active, t)
       case Fetched(_, active, telemetry) =>
         && (forall i, k :: 0 <= i < k < |telemetry| ==> telemetry[i].tupleType != telemetry[k].tupleType)
         && (forall m :: m in telemetry && m.tupleType == t ==> Stock(s, t) <= m.available + InFlight(active, t))
  }

  lemma CreatedJob(c: Config, s: World, spec: JobSpec)
    requires s.pc.Fetched? && s.pc.k < |c.schedulers| && BatchesNatural(c.generators)
    requires Chosen(c.schedulers[s.pc.k], c.generators, s.pc.telemetry, s.pc.active, spec)
    requires forall i, k :: 0 <= i < k < |s.pc.telemetry| ==> s.pc.telemetry[i].tupleType != s.pc.telemetry[k].tupleType
    ensures spec.count >= 0
    ensures exists x, m, g, y ::
              && x in c.schedulers[s.pc.k].policies && x.tupleType == spec.tupleType
              && m in s.pc.telemetry && m.tupleType == spec.tupleType
              && m.available + InFlight(s.pc.active, spec.tupleType) < x.threshold
              && g in c.generators && y in g.supports && y == TupleTypeSpec(spec.tupleType, spec.count)
  {
    var t, telemetry, scheduler := spec.tupleType, s.pc.telemetry, c.schedulers[s.pc.k];
    var i, k :| OnlyListing(c.generators, i, k, t) && IsFrom(c.generators, i, k, spec);
    var row, l :| IsShortRow(telemetry, s.pc.active, scheduler.policies, t, row, l);
    assert IsFirst(telemetry, row);
    var x, m, g := scheduler.policies[l], telemetry[row], c.generators[i];
    var y := g.supports[k];
    assert x in scheduler.policies && m in telemetry && g in c.generators && y in g.supports;
    assert y == TupleTypeSpec(t, spec.count);
  }

  lemma CreateKeepsStock(c: Config, s: World, t: string, b: int, spec: JobSpec)
    requires StockInv(s, t, b) && StockLimit(c, t, b) && BatchesNatural(c.generators)
    ensures StockInv(Next(c, s, CreateJob(spec)), t, b)
  {
    var u := Next(c, s, CreateJob(spec));
    if u != s {
      CreatedJob(c, s, spec);
      SumAppend(s.jobs, Work(spec, JobUnset, false), Share(t));
    }
  }

  lemma JobNextNatural(s: World, a: Step)
    requires CountsNatural(s.jobs)
    ensures CountsNatural(JobNext(s, a).jobs)
  {
    if (a.ActivateChunk? || a.Advance?) && a.i < |s.jobs| {
      assert s.jobs[a.i] in s.jobs;
    }
  }

  /** No step but the creation of a job raises the stock or the pending tuples. */
  lemma JobNextSums(s: World, a: Step, t: string)
    requires CountsNatural(s.jobs)
    ensures JobNext(s, a).pc == s.pc
    ensures Stock(JobNext(s, a), t) <= Stock(s, t) && Pending(JobNext(s, a).jobs, t) <= Pending(s.jobs, t)
  {
    match a {
      case ActivateChunk(i) => ActivateSums(s, i, t);
      case Advance(i, state) => AdvanceSums(s, i, state, t);
      case Delete(i) =>
        if i < |s.jobs| {
          SumAt(s.jobs, i, s.jobs[i], Share(t));
        }
      case _ =>
    }
  }

  lemma ActivateSums(s: World, i: nat, t: string)
    requires CountsNatural(s.jobs)
    ensures var u := JobNext(s, ActivateChunk(i));
            Stock(u, t) == Stock(s, t) && Pending(u.jobs, t) <= Pending(s.jobs, t)
  {
    if i < |s.jobs| {
      assert s.jobs[i] in s.jobs;
      SumAt(s.jobs, i, s.jobs[i].(activated := true), Share(t));
    }
  }

  lemma AdvanceSums(s: World, i: nat, state: JobState, t: string)
    requires CountsNatural(s.jobs)
    ensures var u := JobNext(s, Advance(i, state));
            Stock(u, t) <= Stock(s, t) && Pending(u.jobs, t) <= Pending(s.jobs, t)
  {
    if i < |s.jobs| {
      assert s.jobs[i] in s.jobs;
      SumAt(s.jobs, i, s.jobs[i].(state := state), Share(t));
    }
  }

  lemma JobNextCount(s: World, a: Step)
    ensures JobNext(s, a).pc == s.pc && SumOf(JobNext(s, a).jobs, One()) <= SumOf(s.jobs, One())
  {
    if (a.ActivateChunk? || a.Advance? || a.Delete?) && a.i < |s.jobs| {
      var w := s.jobs[a.i];
      SumAt(s.jobs, a.i, w.(activated := true), One());
      if a.Advance? {
        SumAt(s.jobs, a.i, w.(state := a.state), One());
      }
    }
  }

  predicate IsSchedulerStep(a: Step) {
    a.ListJobs? || a.FetchTelemetry? || a.CreateJob? || a.GiveUp?
  }

  lemma StepKeepsStock(c: Config, s: World, t: string, b: int, a: Step)
    requires StockInv(s, t, b) && StockLimit(c, t, b) && BatchesNatural(c.generators)
    ensures StockInv(Next(c, s, a), t, b)
  {
    if a.CreateJob? {
      CreateKeepsStock(c, s, t, b, a.spec);
    } else if IsSchedulerStep(a) {
      ListedJobs(s.jobs, t);
    } else {
      JobNextSums(s, a, t);
      JobNextNatural(s, a);
      assert Next(c, s, a) == JobNext(s, a);
    }
  }

  lemma StepKeepsCount(c: Config, s: World, limit: int, a: Step)
    requires CountInv(c, s, limit) && ConcurrencyLimit(c, limit)
    ensures CountInv(c, Next(c, s, a), limit)
  {
    if IsSchedulerStep(a) {
      CountActive(s.jobs);
      if a.CreateJob? {
        SumAppend(s.jobs, Work(a.spec, JobUnset, false), One());
      }
    } else {
      JobNextCount(s, a);
      assert Next(c, s, a) == JobNext(s, a);
    }
  }

  /** The number of active jobs never exceeds its initial value or, if that is larger, the largest concurrency. */
  lemma {:induction false} ConcurrencyBound(c: Config, s: World, limit: int, steps: seq<Step>)
    requires s.pc == Rest && |ActiveSpecs(s.jobs)| <= limit && ConcurrencyLimit(c, limit)
    ensures |ActiveSpecs(After(c, s, steps).jobs)| <= limit
    ensures CountInv(c, After(c, s, steps), limit)
  {
    if steps == [] {
      CountActive(s.jobs);
    } else {
      var init := steps[..|steps| - 1];
      ConcurrencyBound(c, s, limit, init);
      StepKeepsCount(c, After(c, s, init), limit, steps[|steps| - 1]);
      CountActive(After(c, s, steps).jobs);
    }
  }

  /** Stock bound: for every tuple type, available tuples plus the tuples of active jobs not activated yet never exceed
      the initial value or, if that is larger, the threshold less one plus the batch size. */
  lemma {:induction false} StockBound(c: Config, s: World, t: string, b: int, steps: seq<Step>)
    requires s.pc == Rest && CountsNatural(s.jobs) && BatchesNatural(c.generators)
    requires Stock(s, t) <= b && StockLimit(c, t, b)
    ensures Stock(After(c, s, steps), t) <= b
    ensures StockInv(After(c, s, steps), t, b)
  {
    if steps != [] {
      var init := steps[..|steps| - 1];
      StockBound(c, s, t, b, init);
      StepKeepsStock(c, After(c, s, init), t, b, steps[|steps| - 1]);
    }
  }

  // Why the order of the two reads matters.

  /** The same reconcile with the reads swapped: telemetry first, then the list of active jobs. */
  ghost function SwappedReconcile(c: Config, fetch: World, list: World, k: nat, telemetry: seq<Metric>,
                                  spec: JobSpec): World
    requires k < |c.schedulers|
  {
    var active := ActiveSpecs(list.jobs);
    if IsTelemetry(telemetry, fetch.castor) && |active| < c.schedulers[k].concurrency
       && Chosen(c.schedulers[k], c.generators, telemetry, active, spec)
    then list.(jobs := list.jobs + [Work(spec, JobUnset, false)]) else list
  }

  /** With the reads swapped, a chunk that is activated and whose job completes between them is counted by neither: the
      stock exceeds both its initial value and the threshold less one plus the batch size. */
  lemma SwappedReadsExceedBound(t: string)
    returns (c: Config, s: World, steps: seq<Step>, telemetry: seq<Metric>, spec: JobSpec)
    ensures |c.schedulers| == 1 && s.pc == Rest && CountsNatural(s.jobs) && BatchesNatural(c.generators)
    ensures Stock(s, t) <= 14 && StockLimit(c, t, 14)
    ensures Stock(SwappedReconcile(c, s, After(c, s, steps), 0, telemetry, spec), t) == 20
  {
    var generator := Generator("g", [TupleTypeSpec(t, 10)]);
    var scheduler := SchedulerSpec("s", 1, 600, [Policy(t, 5, 1)]);
    c := Config([scheduler], [generator]);
    spec := JobSpec("j", true, t, 10, "g");
    s := World([Work(spec, JobRunning, false)], map[], Rest);
    steps := [ActivateChunk(0), Advance(0, JobCompleted)];
    telemetry := [Metric(0, 0, t)];
    SwappedRun(c, s, steps, telemetry, spec, t, generator, scheduler);
  }

  lemma SwappedRun(c: Config, s: World, steps: seq<Step>, telemetry: seq<Metric>, spec: JobSpec, t: string,
                   generator: Generator, scheduler: SchedulerSpec)
    requires generator == Generator("g", [TupleTypeSpec(t, 10)])
    requires scheduler == SchedulerSpec("s", 1, 600, [Policy(t, 5, 1)])
    requires c == Config([scheduler], [generator]) && spec == JobSpec("j", true, t, 10, "g")
    requires s == World([Work(spec, JobRunning, false)], map[], Rest)
    requires steps == [ActivateChunk(0), Advance(0, JobCompleted)] && telemetry == [Metric(0, 0, t)]
    ensures Stock(s, t) == 10 && Stock(SwappedReconcile(c, s, After(c, s, steps), 0, telemetry, spec), t) == 20
  {
    assert s.jobs[..0] == [];
    assert steps[..1] == [ActivateChunk(0)] && steps[..1][..0] == [];
    var u := After(c, s, steps);
    var done := Work(spec, JobCompleted, true);
    var v := JobNext(s, ActivateChunk(0));
    assert v.jobs == [Work(spec, JobRunning, true)] && v.castor == map[t := 10] by {
      assert Available(s.castor, t) == 0;
    }
    assert After(c, s, steps[..1]) == v;
    assert u.jobs == [done] && u.castor == map[t := 10];
    assert [done][..0] == [];
    ChosenOnce(scheduler, generator, telemetry, spec, t);
    assert ActiveSpecs(u.jobs) == [];
    SumAppend(u.jobs, Work(spec, JobUnset, false), Share(t));
  }

  lemma ChosenOnce(scheduler: SchedulerSpec, generator: Generator, telemetry: seq<Metric>, spec: JobSpec, t: string)
    requires generator == Generator("g", [TupleTypeSpec(t, 10)])
    requires scheduler == SchedulerSpec("s", 1, 600, [Policy(t, 5, 1)])
    requires spec == JobSpec("j", true, t, 10, "g") && telemetry == [Metric(0, 0, t)]
    ensures Chosen(scheduler, [generator], telemetry, [], spec)
  {
    assert IsFirst(telemetry, 0) && InFlight([], t) == 0;
    assert IsShortRow(telemetry, [], scheduler.policies, t, 0, 0);
    assert OnlyListing([generator], 0, 0, t) && IsFrom([generator], 0, 0, spec);
  }
}

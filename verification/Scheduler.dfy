/** The scheduler: cleans up finished jobs, bounds the number of active ones and creates jobs for the tuple types that
    the lottery selects. */
module Scheduler {
  import opened Wrappers
  import opened EtcdLog
  import opened RosterModel
  import opened Lottery
  import opened Calls
  import opened Filters

  datatype TupleTypeSpec = TupleTypeSpec(tupleType: string, batchSize: int)
  datatype Generator = Generator(name: string, supports: seq<TupleTypeSpec>)
  datatype SchedulerSpec = SchedulerSpec(name: string, concurrency: int, ttl: int, policies: seq<Policy>)

  /** A job resource of the local cluster, with the time of its last state transition. */
  datatype JobItem = JobItem(name: string, spec: JobSpec, state: JobState, transition: int)

  // Generators.

  /** The generators that list a tuple type, once for every time they list it. */
  function Listing(supports: seq<TupleTypeSpec>, g: Generator, t: string): seq<Generator> {
    if supports == [] then []
    else Listing(supports[..|supports| - 1], g, t) + (if supports[|supports| - 1].tupleType == t then [g] else [])
  }

  function Supporters(generators: seq<Generator>, t: string): seq<Generator> {
    if generators == [] then []
    else
      var g := generators[|generators| - 1];
      Supporters(generators[..|generators| - 1], t) + Listing(g.supports, g, t)
  }

  predicate Lists(g: Generator, t: string) {
    exists i :: 0 <= i < |g.supports| && g.supports[i].tupleType == t
  }

  function SpecOf(supports: seq<TupleTypeSpec>, t: string): Option<TupleTypeSpec> {
    if supports == [] then None
    else if supports[0].tupleType == t then Some(supports[0])
    else SpecOf(supports[1..], t)
  }

  /** Generator i lists the type as its k-th one. */
  predicate IsListed(generators: seq<Generator>, i: int, k: int, t: string) {
    0 <= i < |generators| && 0 <= k < |generators[i].supports| && generators[i].supports[k].tupleType == t
  }

  /** The type is listed just once, by one generator. */
  ghost predicate ListedOnce(generators: seq<Generator>, t: string) {
    exists i, k :: IsListed(generators, i, k, t)
                   && forall i', k' :: IsListed(generators, i', k', t) ==> i' == i && k' == k
  }

  ghost function HasListedOnce(generators: seq<Generator>): Policy -> bool {
    (x: Policy) => ListedOnce(generators, x.tupleType)
  }

  function HasOneSupporter(generators: seq<Generator>): Policy -> bool {
    (x: Policy) => |Supporters(generators, x.tupleType)| == 1
  }

  /** The policies whose tuple type exactly one generator lists. */
  function Serviceable(policies: seq<Policy>, generators: seq<Generator>): seq<Policy> {
    Filter(policies, HasOneSupporter(generators))
  }

  const NOBODY := Generator("", [])

  ghost predicate IsGeneratorMap(byType: map<string, seq<Generator>>, generators: seq<Generator>, current: Generator,
                                 supports: seq<TupleTypeSpec>)
  {
    forall t ::
      var all := Supporters(generators, t) + Listing(supports, current, t);
      (t in byType <==> all != []) && (t in byType ==> byType[t] == all)
  }

  lemma NextSupport(byType: map<string, seq<Generator>>, generators: seq<Generator>, g: Generator, k: nat,
                    now: map<string, seq<Generator>>)
    requires k < |g.supports| && IsGeneratorMap(byType, generators, g, g.supports[..k])
    requires var t := g.supports[k].tupleType;
             now == byType[t := if t in byType then byType[t] + [g] else [g]]
    ensures IsGeneratorMap(now, generators, g, g.supports[..k + 1])
  {
    assert g.supports[..k + 1][..k] == g.supports[..k];
  }

  lemma NextGenerator(byType: map<string, seq<Generator>>, generators: seq<Generator>, i: nat)
    requires i < |generators| && IsGeneratorMap(byType, generators[..i], generators[i], generators[i].supports)
    ensures IsGeneratorMap(byType, generators[..i + 1], NOBODY, [])
  {
    assert generators[..i + 1][..i] == generators[..i];
    assert forall t :: Supporters(generators[..i + 1], t) ==
                       Supporters(generators[..i], t) + Listing(generators[i].supports, generators[i], t);
  }

  method GetGeneratorsByTupleType(generators: seq<Generator>) returns (byType: map<string, seq<Generator>>)
    ensures forall t :: t in byType <==> Supporters(generators, t) != []
    ensures forall t :: t in byType ==> byType[t] == Supporters(generators, t)
  {
    byType := map[];
    for i := 0 to |generators|
      invariant IsGeneratorMap(byType, generators[..i], NOBODY, [])
    {
      var generator := generators[i];
      for k := 0 to |generator.supports|
        invariant IsGeneratorMap(byType, generators[..i], generator, generator.supports[..k])
      {
        var support := generator.supports[k];
        ghost var was := byType;
        if support.tupleType in byType {
          byType := byType[support.tupleType := byType[support.tupleType] + [generator]];
        } else {
          byType := byType[support.tupleType := [generator]];
        }
        NextSupport(was, generators[..i], generator, k, byType);
      }
      assert generator.supports[..|generator.supports|] == generator.supports;
      NextGenerator(byType, generators, i);
    }
    assert generators[..|generators|] == generators;
  }

  method GetServiceablePolicies(all: seq<Policy>, generators: seq<Generator>, byType: map<string, seq<Generator>>)
    returns (policies: seq<Policy>, ghost at: seq<nat>)
    requires forall t :: t in byType <==> Supporters(generators, t) != []
    requires forall t :: t in byType ==> byType[t] == Supporters(generators, t)
    ensures policies == Serviceable(all, generators)
    ensures IsSelection(all, HasListedOnce(generators), policies, at)
  {
    policies := [];
    for i := 0 to |all|
      invariant policies == Serviceable(all[..i], generators)
    {
      var policy := all[i];
      assert all[..i + 1] == all[..i] + [policy];
      FilterMore(all[..i], policy, HasOneSupporter(generators));
      assert policies + [] == policies;
      if policy.tupleType in byType {
        if |byType[policy.tupleType]| <= 1 {
          policies := policies + [policy];
        }
      }
    }
    assert all[..|all|] == all;
    at := FilterSelects(all, HasOneSupporter(generators));
    forall k | 0 <= k < |all| ensures HasOneSupporter(generators)(all[k]) <==> HasListedOnce(generators)(all[k]) {
      SupportedOnce(generators, all[k].tupleType);
    }
  }

  method GetTupleTypeSpec(supports: seq<TupleTypeSpec>, t: string) returns (spec: Option<TupleTypeSpec>)
    ensures spec == SpecOf(supports, t)
  {
    for i := 0 to |supports|
      invariant SpecOf(supports, t) == SpecOf(supports[i..], t)
    {
      assert supports[i..][1..] == supports[i + 1..];
      if supports[i].tupleType == t {
        return Some(supports[i]);
      }
    }
    return None;
  }

  lemma ServiceableHasOne(policies: seq<Policy>, generators: seq<Generator>)
    ensures forall x :: x in Serviceable(policies, generators) ==>
              x in policies && |Supporters(generators, x.tupleType)| == 1
  {
    FilterMembers(policies, HasOneSupporter(generators));
  }

  lemma {:induction false} ListingCounts(supports: seq<TupleTypeSpec>, g: Generator, t: string)
    ensures forall x :: x in Listing(supports, g, t) ==> x == g
    ensures Listing(supports, g, t) != [] <==> exists i :: 0 <= i < |supports| && supports[i].tupleType == t
    ensures |Listing(supports, g, t)| <= 1 <==>
            forall i, k :: 0 <= i < k < |supports| ==> supports[i].tupleType != t || supports[k].tupleType != t
  {
    if supports != [] {
      var init, last := supports[..|supports| - 1], supports[|supports| - 1];
      ListingCounts(init, g, t);
      assert supports == init + [last];
    }
  }

  lemma {:induction false} SomebodySupports(generators: seq<Generator>, t: string)
    ensures Supporters(generators, t) != [] <==> exists i :: 0 <= i < |generators| && Lists(generators[i], t)
  {
    if generators != [] {
      var init, last := generators[..|generators| - 1], generators[|generators| - 1];
      ListingCounts(last.supports, last, t);
      SomebodySupports(init, t);
      assert generators == init + [last];
    }
  }

  /** If a type is listed just once, then by one generator. */
  lemma {:induction false} OnlySupporter(generators: seq<Generator>, t: string, i: nat)
    requires i < |generators| && Lists(generators[i], t) && |Supporters(generators, t)| == 1
    ensures Supporters(generators, t) == [generators[i]]
    ensures forall k :: 0 <= k < |generators| && k != i ==> !Lists(generators[k], t)
  {
    var init, last := generators[..|generators| - 1], generators[|generators| - 1];
    ListingCounts(last.supports, last, t);
    SomebodySupports(init, t);
    if Lists(last, t) {
      assert Supporters(init, t) == [];
      assert i == |init|;
      assert Listing(last.supports, last, t)[0] in Listing(last.supports, last, t);
    } else {
      OnlySupporter(init, t, i);
    }
  }

  /** One supporter in the map of generators means one listing. */
  lemma SupportedOnce(generators: seq<Generator>, t: string)
    ensures |Supporters(generators, t)| == 1 <==> ListedOnce(generators, t)
  {
    CountListings(generators, t);
    if |Supporters(generators, t)| == 1 {
      SomebodySupports(generators, t);
      var i :| 0 <= i < |generators| && Lists(generators[i], t);
      var k :| 0 <= k < |generators[i].supports| && generators[i].supports[k].tupleType == t;
      assert IsListed(generators, i, k, t);
    }
    if ListedOnce(generators, t) {
      var i, k :| IsListed(generators, i, k, t);
      assert Lists(generators[i], t);
      SomebodySupports(generators, t);
    }
  }

  /** Any two listings of the type are the same. */
  ghost predicate AtMostOneListing(generators: seq<Generator>, t: string) {
    forall i, k, i', k' :: IsListed(generators, i, k, t) && IsListed(generators, i', k', t) ==> i == i' && k == k'
  }

  lemma {:induction false} CountListings(generators: seq<Generator>, t: string)
    ensures |Supporters(generators, t)| <= 1 <==> AtMostOneListing(generators, t)
  {
    if generators != [] {
      var init, last := generators[..|generators| - 1], generators[|generators| - 1];
      CountListings(init, t);
      if |Supporters(generators, t)| > 1 {
        MoreListings(generators, t);
      } else if Supporters(init, t) == [] {
        ListedByLast(generators, t);
        ListingCounts(last.supports, last, t);
      } else {
        ListedBefore(generators, t);
      }
    }
  }

  lemma ListedByLast(generators: seq<Generator>, t: string)
    requires generators != [] && Supporters(generators[..|generators| - 1], t) == []
    ensures forall i, k :: IsListed(generators, i, k, t) ==> i == |generators| - 1
  {
    var init := generators[..|generators| - 1];
    SomebodySupports(init, t);
    forall i, k | IsListed(generators, i, k, t) ensures i == |init| {
      assert i < |init| ==> Lists(init[i], t);
    }
  }

  lemma ListedBefore(generators: seq<Generator>, t: string)
    requires generators != [] && |Supporters(generators, t)| <= 1 && Supporters(generators[..|generators| - 1], t) != []
    ensures forall i, k :: IsListed(generators, i, k, t) ==> IsListed(generators[..|generators| - 1], i, k, t)
  {
    var init, last := generators[..|generators| - 1], generators[|generators| - 1];
    ListingCounts(last.supports, last, t);
    forall i, k | IsListed(generators, i, k, t) ensures IsListed(init, i, k, t) {
      assert i < |init| ==> init[i] == generators[i];
    }
  }

  lemma MoreListings(generators: seq<Generator>, t: string)
    requires generators != [] && |Supporters(generators, t)| > 1
    requires var init := generators[..|generators| - 1]; |Supporters(init, t)| > 1 ==> !AtMostOneListing(init, t)
    ensures !AtMostOneListing(generators, t)
  {
    var init, last := generators[..|generators| - 1], generators[|generators| - 1];
    var n := |init|;
    ListingCounts(last.supports, last, t);
    SomebodySupports(init, t);
    if |Supporters(init, t)| > 1 {
      var i, k, i', k' :| IsListed(init, i, k, t) && IsListed(init, i', k', t) && (i != i' || k != k');
      assert IsListed(generators, i, k, t) && IsListed(generators, i', k', t);
    } else if |Listing(last.supports, last, t)| > 1 {
      var k, k' :| 0 <= k < k' < |last.supports| && last.supports[k].tupleType == t == last.supports[k'].tupleType;
      assert IsListed(generators, n, k, t) && IsListed(generators, n, k', t);
    } else {
      var i :| 0 <= i < |init| && Lists(init[i], t);
      var k :| 0 <= k < |init[i].supports| && init[i].supports[k].tupleType == t;
      var k' :| 0 <= k' < |last.supports| && last.supports[k'].tupleType == t;
      assert IsListed(generators, i, k, t) && IsListed(generators, n, k', t);
    }
  }

  lemma {:induction false} SpecOfListed(supports: seq<TupleTypeSpec>, t: string)
    ensures SpecOf(supports, t).Some? <==> exists i :: 0 <= i < |supports| && supports[i].tupleType == t
    ensures SpecOf(supports, t).Some? ==>
              exists i :: 0 <= i < |supports| && supports[i].tupleType == t && SpecOf(supports, t).value == supports[i]
                          && forall k :: 0 <= k < i ==> supports[k].tupleType != t
  {
    if supports != [] && supports[0].tupleType != t {
      var rest := supports[1..];
      SpecOfListed(rest, t);
      assert supports == [supports[0]] + rest;
      if SpecOf(rest, t).Some? {
        var i :| 0 <= i < |rest| && rest[i].tupleType == t && SpecOf(rest, t).value == rest[i]
                 && forall k :: 0 <= k < i ==> rest[k].tupleType != t;
        assert supports[i + 1] == rest[i];
        forall k | 0 <= k < i + 1 ensures supports[k].tupleType != t {
          assert k > 0 ==> supports[k] == rest[k - 1];
        }
      }
    }
  }

  /** The generator of a type with a serviceable policy. */
  lemma OnlyGenerator(generators: seq<Generator>, t: string) returns (i: nat)
    requires |Supporters(generators, t)| == 1
    ensures i < |generators| && Supporters(generators, t)[0] == generators[i] && Lists(generators[i], t)
    ensures forall k :: 0 <= k < |generators| && k != i ==> !Lists(generators[k], t)
    ensures SpecOf(generators[i].supports, t).Some?
  {
    SomebodySupports(generators, t);
    i :| 0 <= i < |generators| && Lists(generators[i], t);
    OnlySupporter(generators, t, i);
    SpecOfListed(generators[i].supports, t);
  }

  // Jobs.

  predicate IsDone(j: JobItem) {
    j.state == JobCompleted || j.state == JobFailed
  }

  predicate Finished(j: JobItem, ttl: int, now: int) {
    IsDone(j) && now > j.transition + ttl
  }

  function IsFinished(ttl: int, now: int): JobItem -> bool {
    j => Finished(j, ttl, now)
  }

  predicate UniqueNames(jobs: seq<JobItem>) {
    forall i, k :: 0 <= i < k < |jobs| ==> jobs[i].name != jobs[k].name
  }

  function Matching(jobs: seq<JobItem>, pred: JobItem -> bool): seq<JobItem> {
    Filter(jobs, pred)
  }

  function NotDone(): JobItem -> bool {
    j => !IsDone(j)
  }

  function Active(jobs: seq<JobItem>): seq<JobItem> {
    Matching(jobs, NotDone())
  }

  /** The active jobs are those that are neither Completed nor Failed, in order. */
  lemma ActiveJobs(jobs: seq<JobItem>) returns (at: seq<nat>)
    ensures IsSelection(jobs, (j: JobItem) => j.state != JobCompleted && j.state != JobFailed, Active(jobs), at)
  {
    at := FilterSelects(jobs, NotDone());
  }

  function Specs(jobs: seq<JobItem>): seq<JobSpec> {
    seq(|jobs|, i requires 0 <= i < |jobs| => jobs[i].spec)
  }

  function Unnamed(names: set<string>): JobItem -> bool {
    (j: JobItem) => j.name !in names
  }

  /** The jobs without those of the given names, in the same order. */
  function Without(jobs: seq<JobItem>, names: set<string>): seq<JobItem> {
    Filter(jobs, Unnamed(names))
  }

  lemma WithoutMore(jobs: seq<JobItem>, names: set<string>, more: set<string>)
    ensures Without(Without(jobs, names), more) == Without(jobs, names + more)
  {
    FilterTwice(jobs, Unnamed(names), Unnamed(more), Unnamed(names + more));
  }

  /** Deleting finished jobs does not change the active ones. */
  lemma {:induction false} WithoutKeepsActive(jobs: seq<JobItem>, names: set<string>)
    requires forall j :: j in jobs && j.name in names ==> IsDone(j)
    ensures Active(Without(jobs, names)) == Active(jobs)
  {
    if jobs != [] {
      var init, last := jobs[..|jobs| - 1], jobs[|jobs| - 1];
      assert jobs == init + [last];
      WithoutKeepsActive(init, names);
      FilterMore(Without(init, names), last, NotDone());
      assert Without(init, names) + [] == Without(init, names);
    }
  }

  lemma {:induction false} WithoutNothing(jobs: seq<JobItem>)
    ensures Without(jobs, {}) == jobs
  {
    if jobs != [] {
      WithoutNothing(jobs[..|jobs| - 1]);
    }
  }

  function Names(jobs: seq<JobItem>): set<string> {
    set j | j in jobs :: j.name
  }

  /** A job of the name has ended and is beyond its time to live. */
  ghost predicate Expired(jobs: seq<JobItem>, ttl: int, now: int, name: string) {
    exists j :: j in jobs && j.name == name && (j.state == JobCompleted || j.state == JobFailed)
                && now > j.transition + ttl
  }

  lemma FinishedNames(jobs: seq<JobItem>, ttl: int, now: int)
    ensures forall name :: name in Names(Matching(jobs, IsFinished(ttl, now))) <==> Expired(jobs, ttl, now, name)
  {
    FilterMembers(jobs, IsFinished(ttl, now));
  }

  lemma OnlyFinishedNames(jobs: seq<JobItem>, names: set<string>, ttl: int, now: int)
    requires UniqueNames(jobs) && forall name :: name in names ==> Expired(jobs, ttl, now, name)
    ensures forall j :: j in jobs && j.name in names ==> IsDone(j)
  {
  }

  datatype Outcome = Idle | Interrupted | Created(job: JobItem) | NoGenerator | NotSupported

  // What is wanted, and what a created job looks like.

  /** Generator i lists the type as its k-th one, and there is no other listing of the type. */
  ghost predicate OnlyListing(generators: seq<Generator>, i: int, k: int, t: string) {
    IsListed(generators, i, k, t) && forall i', k' :: IsListed(generators, i', k', t) ==> i' == i && k' == k
  }

  /** Some type is short and has just one generator. */
  ghost predicate Wanted(scheduler: SchedulerSpec, generators: seq<Generator>, telemetry: seq<Metric>,
                         active: seq<JobSpec>)
  {
    exists t :: ListedOnce(generators, t) && IsShort(telemetry, active, scheduler.policies, t)
  }

  /** No type with just one generator is short in two rows. */
  ghost predicate ShortOnce(scheduler: SchedulerSpec, generators: seq<Generator>, telemetry: seq<Metric>,
                            active: seq<JobSpec>)
  {
    forall t, i, k, i', k' ::
      (ListedOnce(generators, t) && IsShortRow(telemetry, active, scheduler.policies, t, i, k)
       && IsShortRow(telemetry, active, scheduler.policies, t, i', k')) ==> i == i'
  }

  /** The job is for a type that is short, names the only generator of the type and has its batch size. */
  ghost predicate Chosen(scheduler: SchedulerSpec, generators: seq<Generator>, telemetry: seq<Metric>,
                         active: seq<JobSpec>, spec: JobSpec)
  {
    && IsShort(telemetry, active, scheduler.policies, spec.tupleType)
    && exists i, k :: OnlyListing(generators, i, k, spec.tupleType) && IsFrom(generators, i, k, spec)
  }

  predicate IsFrom(generators: seq<Generator>, i: int, k: int, spec: JobSpec) {
    && IsListed(generators, i, k, spec.tupleType)
    && spec.generator == generators[i].name && spec.count == generators[i].supports[k].batchSize
  }

  lemma {:induction false} ServiceablePolicy(policies: seq<Policy>, generators: seq<Generator>, t: string)
    ensures PolicyOf(Serviceable(policies, generators), t)
            == if ListedOnce(generators, t) then PolicyOf(policies, t) else None
  {
    if policies != [] {
      var init, last := policies[..|policies| - 1], policies[|policies| - 1];
      ServiceablePolicy(init, generators, t);
      SupportedOnce(generators, last.tupleType);
      var kept := Serviceable(init, generators);
      assert kept + [] == kept && (kept + [last])[..|kept|] == kept;
    }
  }

  /** Among the serviceable policies, the eligible types are those that are short and have just one generator. */
  lemma EligibleIsWanted(telemetry: seq<Metric>, policies: seq<Policy>, generators: seq<Generator>,
                         active: seq<JobSpec>, t: string)
    ensures t in EligibleTypes(WithInFlight(telemetry, active), Serviceable(policies, generators))
            <==> ListedOnce(generators, t) && IsShort(telemetry, active, policies, t)
  {
    var rows := WithInFlight(telemetry, active);
    EligibleIsShort(telemetry, policies, active, t);
    ServiceablePolicy(policies, generators, t);
    assert forall m: Metric :: m.tupleType == t ==>
      (Eligible(m, Serviceable(policies, generators)) <==> ListedOnce(generators, t) && Eligible(m, policies));
  }

  /** A row is eligible among the serviceable policies if its type has just one generator and it is short. */
  lemma ServiceableRow(scheduler: SchedulerSpec, generators: seq<Generator>, telemetry: seq<Metric>,
                       active: seq<JobSpec>, i: nat)
    requires i < |telemetry|
    ensures Eligible(WithInFlight(telemetry, active)[i], Serviceable(scheduler.policies, generators))
            <==> ListedOnce(generators, telemetry[i].tupleType)
                 && exists k :: IsShortRow(telemetry, active, scheduler.policies, telemetry[i].tupleType, i, k)
  {
    ServiceablePolicy(scheduler.policies, generators, telemetry[i].tupleType);
    RowIsShort(telemetry, scheduler.policies, active, telemetry[i].tupleType, i);
  }

  lemma ShortOnceIsDistinct(scheduler: SchedulerSpec, generators: seq<Generator>, telemetry: seq<Metric>,
                            active: seq<JobSpec>)
    ensures ShortOnce(scheduler, generators, telemetry, active)
            <==> EligibleDistinct(WithInFlight(telemetry, active), Serviceable(scheduler.policies, generators))
  {
    var rows, policies := WithInFlight(telemetry, active), Serviceable(scheduler.policies, generators);
    forall i | 0 <= i < |rows|
      ensures rows[i].tupleType == telemetry[i].tupleType
      ensures Eligible(rows[i], policies)
              <==> ListedOnce(generators, telemetry[i].tupleType)
                   && exists k :: IsShortRow(telemetry, active, scheduler.policies, telemetry[i].tupleType, i, k)
    {
      ServiceableRow(scheduler, generators, telemetry, active, i);
    }
  }

  /** Every number that can be drawn creates a job, in every order of visiting the types, exactly if no type with just
      one generator is short in two rows. */
  lemma EveryDrawSelectsIff(scheduler: SchedulerSpec, generators: seq<Generator>, telemetry: seq<Metric>,
                            active: seq<JobSpec>, order: seq<string>)
    requires Positive(scheduler.policies)
    requires forall t :: t in order <==> ListedOnce(generators, t) && IsShort(telemetry, active, scheduler.policies, t)
    requires forall i, k :: 0 <= i < k < |order| ==> order[i] != order[k]
    ensures var rows, policies := WithInFlight(telemetry, active), Serviceable(scheduler.policies, generators);
            (forall r :: 0 <= r < WeightSum(rows, policies) ==> Draw(order, policies, r).Some?)
            <==> ShortOnce(scheduler, generators, telemetry, active)
  {
    var rows, policies := WithInFlight(telemetry, active), Serviceable(scheduler.policies, generators);
    ServiceableHasOne(scheduler.policies, generators);
    forall t ensures t in order <==> t in EligibleTypes(rows, policies) {
      EligibleIsWanted(telemetry, scheduler.policies, generators, active, t);
    }
    ShortOnceIsDistinct(scheduler, generators, telemetry, active);
    EveryDrawWinsIff(rows, policies, order);
  }

  /** What a call changes: only expired jobs are deleted, and a created one is as chosen and the only new one. */
  ghost predicate Reconciled(scheduler: SchedulerSpec, generators: seq<Generator>, telemetry: seq<Metric>, now: int,
                             jobs: seq<JobItem>, deleted: set<string>, r: Outcome, after: seq<JobItem>)
  {
    && (forall name :: name in deleted ==> Expired(jobs, scheduler.ttl, now, name))
    && after == Without(jobs, deleted) + (if r.Created? then [r.job] else [])
    && (r.Created? ==>
          && r.job.state == JobUnset && |Active(jobs)| < scheduler.concurrency
          && Chosen(scheduler, generators, telemetry, Specs(Active(jobs)), r.job.spec))
  }

  class Reconciler {
    const results: nat -> bool  // whether an API call succeeds, by its number
    var made: nat               // API calls made so far
    var jobs: seq<JobItem>      // the job resources of the cluster

    constructor (results: nat -> bool, jobs: seq<JobItem>)
      ensures this.results == results && this.jobs == jobs && made == 0
    {
      this.results, this.jobs, made := results, jobs, 0;
    }

    /** The number of API calls that have failed so far. */
    ghost function Failures(): nat
      reads this`made
    {
      FailuresAmong(results, made)
    }

    /** Call an API: the next result says whether the call succeeds. */
    method Call() returns (ok: bool)
      modifies this`made
      ensures made == old(made) + 1 && ok == results(old(made))
      ensures Failures() == old(Failures()) + if ok then 0 else 1
    {
      OneMoreCall(results, made);
      ok := results(made);
      made := made + 1;
    }

    /** The jobs that satisfy the predicate, in order. */
    method GetMatchingJobs(pred: JobItem -> bool) returns (matching: seq<JobItem>, ghost at: seq<nat>)
      ensures matching == Matching(jobs, pred)
      ensures IsSelection(jobs, pred, matching, at)
    {
      matching := [];
      for i := 0 to |jobs|
        invariant matching == Matching(jobs[..i], pred)
      {
        assert jobs[..i + 1] == jobs[..i] + [jobs[i]];
        FilterMore(jobs[..i], jobs[i], pred);
        assert matching + [] == matching;
        if pred(jobs[i]) {
          matching := matching + [jobs[i]];
        }
      }
      assert jobs[..|jobs|] == jobs;
      at := FilterSelects(jobs, pred);
    }

    /** Bring the jobs into a random order, so that one that cannot be deleted does not block the others forever. */
    method Shuffle(a: array<JobItem>)
      modifies a
      ensures multiset(a[..]) == multiset(old(a[..]))
    {
      var i := a.Length - 1;
      while i > 0
        invariant i < a.Length && multiset(a[..]) == multiset(old(a[..]))
      {
        var k :| 0 <= k <= i;
        a[i], a[k] := a[k], a[i];
        i := i - 1;
      }
    }

    /** Delete the jobs that have ended and are beyond their time to live, in some order. If a call fails the rest
        stays; nothing else is ever deleted. */
    method CleanupFinishedJobs(ttl: int, now: int) returns (ok: bool, ghost deleted: set<string>)
      modifies this`jobs, this`made
      ensures jobs == Without(old(jobs), deleted)
      ensures forall j :: j in jobs <==> j in old(jobs) && j.name !in deleted
      ensures forall name :: name in deleted ==> Expired(old(jobs), ttl, now, name)
      ensures ok ==> forall name :: name in deleted <==> Expired(old(jobs), ttl, now, name)
      ensures Failures() >= old(Failures()) && (ok <==> Failures() == old(Failures()))
    {
      deleted := {};
      WithoutNothing(jobs);
      ok := Call();
      if !ok { return; }
      var finished;
      ghost var at;
      finished, at := GetMatchingJobs(IsFinished(ttl, now));
      FinishedNames(jobs, ttl, now);
      var a := new JobItem[|finished|](i requires 0 <= i < |finished| => finished[i]);
      assert a[..] == finished;
      Shuffle(a);
      ghost var order := a[..];
      SameMembers(order, finished);
      ok, deleted := DeleteAll(a);
      FilterMembers(old(jobs), Unnamed(deleted));
      assert order[..a.Length] == order;
    }

    /** Delete the given jobs one by one, up to the first failure. */
    method DeleteAll(a: array<JobItem>) returns (ok: bool, ghost deleted: set<string>)
      modifies this`jobs, this`made
      ensures jobs == Without(old(jobs), deleted) && deleted <= Names(a[..])
      ensures Failures() >= old(Failures()) && (ok <==> Failures() == old(Failures()))
      ensures ok ==> deleted == Names(a[..])
    {
      deleted, ok := {}, true;
      WithoutNothing(jobs);
      for i := 0 to a.Length
        invariant jobs == Without(old(jobs), deleted) && deleted == Names(a[..i])
        invariant Failures() == old(Failures())
      {
        assert a[..i + 1] == a[..i] + [a[i]];
        assert a[..i] <= a[..];
        ok := Call();
        if !ok { return; }
        WithoutMore(old(jobs), deleted, {a[i].name});
        jobs := Without(jobs, {a[i].name});
        deleted := deleted + {a[i].name};
      }
      assert a[..a.Length] == a[..];
      ok := true;
    }

    /** Create a job for a tuple type with a generator. The initial status is dropped by the API server, as it always
        is for resources with a status subresource. */
    method CreateJob(scheduler: SchedulerSpec, generator: Generator, tupleType: string, jobId: string, now: int)
      returns (r: Outcome, ghost k: nat)
      modifies this`jobs, this`made
      ensures r.NotSupported?
              <==> forall i :: 0 <= i < |generator.supports| ==> generator.supports[i].tupleType != tupleType
      ensures r.NotSupported? || r.Interrupted? || r.Created?
      ensures !r.NotSupported? ==>
                && k < |generator.supports| && generator.supports[k].tupleType == tupleType
                && forall i :: 0 <= i < k ==> generator.supports[i].tupleType != tupleType
      ensures r.Created? ==>
                && jobs == old(jobs) + [r.job] && r.job.state == JobUnset && r.job.name == scheduler.name + "-" + jobId
                && r.job.spec == JobSpec(jobId, true, tupleType, generator.supports[k].batchSize, generator.name)
      ensures !r.Created? ==> jobs == old(jobs)
      ensures Failures() >= old(Failures()) && (r.Interrupted? <==> Failures() > old(Failures()))
    {
      var spec := GetTupleTypeSpec(generator.supports, tupleType);
      SpecOfListed(generator.supports, tupleType);
      k := 0;
      if spec.None? {
        return NotSupported, k;
      }
      k :| k < |generator.supports| && generator.supports[k].tupleType == tupleType
           && spec.value == generator.supports[k]
           && forall i :: 0 <= i < k ==> generator.supports[i].tupleType != tupleType;
      var ok := Call();
      if !ok {
        return Interrupted, k;
      }
      var jobSpec := JobSpec(jobId, true, tupleType, spec.value.batchSize, generator.name);
      var job := JobItem(scheduler.name + "-" + jobId, jobSpec, JobUnset, now);
      jobs := jobs + [job];
      return Created(job), k;
    }

    /** One call of the scheduler; it gives up exactly if an API call fails. Expired jobs disappear. Then a job is
        created exactly if there are fewer active ones than the concurrency allows and some type with just one
        generator is short of its threshold; only if such a type is short in two telemetry rows the lottery may pass
        over all. The job is for such a type, with its generator and batch size. Neither of the errors for a missing
        generator or specification ever occurs. */
    method Reconcile(scheduler: SchedulerSpec, generators: seq<Generator>, telemetry: seq<Metric>, jobId: string,
                     now: int, random: int -> int)
      returns (r: Outcome, ghost deleted: set<string>)
      requires Positive(scheduler.policies) && UniqueNames(jobs) && IsRandom(random)
      modifies this`jobs, this`made
      ensures Failures() >= old(Failures()) && (r.Interrupted? <==> Failures() > old(Failures()))
      ensures !r.NoGenerator? && !r.NotSupported?
      ensures Reconciled(scheduler, generators, telemetry, now, old(jobs), deleted, r, jobs)
      ensures !r.Interrupted? ==> forall name :: name in deleted <==> Expired(old(jobs), scheduler.ttl, now, name)
      ensures !r.Interrupted? && ShortOnce(scheduler, generators, telemetry, Specs(Active(old(jobs)))) ==>
                (r.Created? <==> |Active(old(jobs))| < scheduler.concurrency
                                 && Wanted(scheduler, generators, telemetry, Specs(Active(old(jobs)))))
      ensures |Active(jobs)| <= |Active(old(jobs))| || |Active(jobs)| <= scheduler.concurrency
    {
      var ok;
      ok, deleted := CleanupFinishedJobs(scheduler.ttl, now);
      assert jobs + [] == jobs;
      OnlyFinishedNames(old(jobs), deleted, scheduler.ttl, now);
      WithoutKeepsActive(old(jobs), deleted);
      if !ok { return Interrupted, deleted; }
      ok := Call();
      if !ok { return Interrupted, deleted; }
      var activeJobs;
      ghost var at;
      activeJobs, at := GetMatchingJobs(NotDone());
      if scheduler.concurrency <= |activeJobs| { return Idle, deleted; }
      ok := Call();
      if !ok { return Interrupted, deleted; }
      r := ScheduleJob(scheduler, generators, telemetry, Specs(activeJobs), jobId, now, random);
      if r.Created? {
        FilterMore(Without(old(jobs), deleted), r.job, NotDone());
      }
    }

    /** Let the lottery decide and create a job accordingly. */
    method ScheduleJob(scheduler: SchedulerSpec, generators: seq<Generator>, telemetry: seq<Metric>,
                       active: seq<JobSpec>, jobId: string, now: int, random: int -> int)
      returns (r: Outcome)
      requires Positive(scheduler.policies) && IsRandom(random)
      modifies this`jobs, this`made
      ensures Failures() >= old(Failures()) && (r.Interrupted? <==> Failures() > old(Failures()))
      ensures !r.NoGenerator? && !r.NotSupported?
      ensures !r.Created? ==> jobs == old(jobs)
      ensures r.Created? ==>
                && jobs == old(jobs) + [r.job] && r.job.state == JobUnset
                && Chosen(scheduler, generators, telemetry, active, r.job.spec)
      ensures !r.Interrupted? && ShortOnce(scheduler, generators, telemetry, active) ==>
                (r.Created? <==> Wanted(scheduler, generators, telemetry, active))
    {
      var ok := Call();
      if !ok { return Interrupted; }
      var selected, byType := Select(scheduler, generators, telemetry, active, random);
      if selected.None? { return Idle; }
      var t := selected.value;
      SupportedOnce(generators, t);
      var i := OnlyGenerator(generators, t);
      if t !in byType || byType[t] == [] { return NoGenerator; }
      ghost var k;
      r, k := CreateJob(scheduler, byType[t][0], t, jobId, now);
      if r.Created? {
        ChosenBySelection(scheduler, generators, telemetry, active, i, k, r.job.spec);
      }
    }

    /** The type that the lottery selects among the serviceable policies, and the generators by type. */
    method Select(scheduler: SchedulerSpec, generators: seq<Generator>, telemetry: seq<Metric>, active: seq<JobSpec>,
                  random: int -> int)
      returns (selected: Option<string>, byType: map<string, seq<Generator>>)
      requires Positive(scheduler.policies) && IsRandom(random)
      ensures selected.Some? ==>
                ListedOnce(generators, selected.value)
                && IsShort(telemetry, active, scheduler.policies, selected.value)
      ensures ShortOnce(scheduler, generators, telemetry, active) ==>
                (selected.Some? <==> Wanted(scheduler, generators, telemetry, active))
      ensures forall t :: t in byType <==> Supporters(generators, t) != []
      ensures forall t :: t in byType ==> byType[t] == Supporters(generators, t)
    {
      byType := GetGeneratorsByTupleType(generators);
      var policies;
      ghost var at, order, ticket;
      policies, at := GetServiceablePolicies(scheduler.policies, generators, byType);
      ServiceableHasOne(scheduler.policies, generators);
      selected, order, ticket := Schedule(telemetry, policies, active, random);
      SelectedIsWanted(scheduler, generators, telemetry, active, order, ticket, selected);
    }
  }

  /** What the draw of a lottery among the serviceable policies means. */
  lemma SelectedIsWanted(scheduler: SchedulerSpec, generators: seq<Generator>, telemetry: seq<Metric>,
                         active: seq<JobSpec>, order: seq<string>, ticket: int, selected: Option<string>)
    requires Positive(scheduler.policies)
    requires var rows, policies := WithInFlight(telemetry, active), Serviceable(scheduler.policies, generators);
             && IsOrder(order, EligibleTypes(rows, policies))
             && (order == [] ==> selected == None)
             && (order != [] ==> 0 <= ticket < WeightSum(rows, policies) && selected == Draw(order, policies, ticket))
    ensures selected.Some? ==>
              ListedOnce(generators, selected.value) && IsShort(telemetry, active, scheduler.policies, selected.value)
    ensures ShortOnce(scheduler, generators, telemetry, active) ==>
              (selected.Some? <==> Wanted(scheduler, generators, telemetry, active))
  {
    var rows, policies := WithInFlight(telemetry, active), Serviceable(scheduler.policies, generators);
    ServiceableHasOne(scheduler.policies, generators);
    EmptyOrder(order, EligibleTypes(rows, policies));
    if selected.Some? {
      DrawFrom(order, policies, ticket);
      EligibleIsWanted(telemetry, scheduler.policies, generators, active, selected.value);
    } else if Wanted(scheduler, generators, telemetry, active) && ShortOnce(scheduler, generators, telemetry, active) {
      var t :| ListedOnce(generators, t) && IsShort(telemetry, active, scheduler.policies, t);
      EligibleIsWanted(telemetry, scheduler.policies, generators, active, t);
      ShortOnceIsDistinct(scheduler, generators, telemetry, active);
      assert t in order;
      LotteryIsExact(rows, policies, order);
    }
  }

  lemma ChosenBySelection(scheduler: SchedulerSpec, generators: seq<Generator>, telemetry: seq<Metric>,
                          active: seq<JobSpec>, i: nat, k: nat, spec: JobSpec)
    requires ListedOnce(generators, spec.tupleType) && IsShort(telemetry, active, scheduler.policies, spec.tupleType)
    requires i < |generators| && k < |generators[i].supports| && generators[i].supports[k].tupleType == spec.tupleType
    requires spec.generator == generators[i].name && spec.count == generators[i].supports[k].batchSize
    ensures Chosen(scheduler, generators, telemetry, active, spec)
  {
    assert IsListed(generators, i, k, spec.tupleType);
    assert OnlyListing(generators, i, k, spec.tupleType) && IsFrom(generators, i, k, spec);
  }

  lemma SameMembers(a: seq<JobItem>, b: seq<JobItem>)
    requires multiset(a) == multiset(b)
    ensures Names(a) == Names(b)
  {
    forall x ensures x in a <==> x in b {
      assert x in a <==> x in multiset(a);
      assert x in b <==> x in multiset(b);
    }
  }
}

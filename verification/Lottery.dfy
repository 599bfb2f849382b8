/** The lottery that decides for which tuple type to generate tuples next. */
module Lottery {
  import opened Wrappers
  import opened EtcdLog

  datatype Metric = Metric(available: int, consumptionRate: int, tupleType: string)
  datatype Policy = Policy(tupleType: string, threshold: int, priority: int)

  /** Priorities are positive by the schema of the scheduler resource. */
  predicate Positive(policies: seq<Policy>) {
    forall x :: x in policies ==> x.priority > 0
  }

  // In-flight tuples.

  function InFlight(jobs: seq<JobSpec>, t: string): int {
    if jobs == [] then 0
    else
      var last := jobs[|jobs| - 1];
      InFlight(jobs[..|jobs| - 1], t) + (if last.tupleType == t then last.count else 0)
  }

  predicate IsFirst(metrics: seq<Metric>, i: nat)
    requires i < |metrics|
  {
    forall k :: 0 <= k < i ==> metrics[k].tupleType != metrics[i].tupleType
  }

  /** The first row of every type also counts the tuples of the jobs. */
  function WithInFlight(metrics: seq<Metric>, jobs: seq<JobSpec>): seq<Metric> {
    seq(|metrics|, i requires 0 <= i < |metrics| =>
      if IsFirst(metrics, i) then
        metrics[i].(available := metrics[i].available + InFlight(jobs, metrics[i].tupleType))
      else metrics[i])
  }

  // Eligible types.

  /** The last policy of a type wins. */
  function PolicyOf(policies: seq<Policy>, t: string): (r: Option<Policy>)
    ensures r.Some? ==> r.value in policies && r.value.tupleType == t
    ensures r.None? ==> forall x :: x in policies ==> x.tupleType != t
  {
    if policies == [] then None
    else
      var last := policies[|policies| - 1];
      assert policies == policies[..|policies| - 1] + [last];
      if last.tupleType == t then Some(last) else PolicyOf(policies[..|policies| - 1], t)
  }

  /** The last policy of a type, by position. */
  predicate Governs(policies: seq<Policy>, k: int, t: string) {
    && 0 <= k < |policies| && policies[k].tupleType == t
    && forall l :: k < l < |policies| ==> policies[l].tupleType != t
  }

  lemma {:induction false} PolicyGoverns(policies: seq<Policy>, t: string)
    ensures forall k :: Governs(policies, k, t) ==> PolicyOf(policies, t) == Some(policies[k])
    ensures PolicyOf(policies, t).Some? <==> exists k :: Governs(policies, k, t)
    ensures PolicyOf(policies, t).Some? <==> exists x :: x in policies && x.tupleType == t
  {
    if policies != [] {
      var init, last := policies[..|policies| - 1], policies[|policies| - 1];
      PolicyGoverns(init, t);
      assert policies == init + [last];
      if last.tupleType == t {
        assert Governs(policies, |init|, t);
      } else {
        forall k ensures Governs(policies, k, t) <==> Governs(init, k, t) {
          assert 0 <= k < |init| ==> policies[k] == init[k];
          assert Governs(policies, k, t) ==> k != |init|;
          assert forall l :: 0 <= l < |init| ==> policies[l] == init[l];
        }
      }
    }
  }

  predicate Eligible(m: Metric, policies: seq<Policy>) {
    PolicyOf(policies, m.tupleType).Some? && m.available < PolicyOf(policies, m.tupleType).value.threshold
  }

  function Priority(policies: seq<Policy>, t: string): int {
    if PolicyOf(policies, t).Some? then PolicyOf(policies, t).value.priority else 0
  }

  function EligibleTypes(rows: seq<Metric>, policies: seq<Policy>): set<string> {
    set i | 0 <= i < |rows| && Eligible(rows[i], policies) :: rows[i].tupleType
  }

  function WeightSum(rows: seq<Metric>, policies: seq<Policy>): int {
    if rows == [] then 0
    else
      var last := rows[|rows| - 1];
      WeightSum(rows[..|rows| - 1], policies) + (if Eligible(last, policies) then Priority(policies, last.tupleType) else 0)
  }

  predicate EligibleDistinct(rows: seq<Metric>, policies: seq<Policy>) {
    forall i, k :: 0 <= i < k < |rows| && Eligible(rows[i], policies) && Eligible(rows[k], policies) ==>
      rows[i].tupleType != rows[k].tupleType
  }

  // The draw.

  /** An order in which a map with the given keys may be visited. */
  ghost predicate IsOrder(order: seq<string>, keys: set<string>) {
    && (forall i, k :: 0 <= i < k < |order| ==> order[i] != order[k])
    && (forall t :: t in order <==> t in keys)
  }

  function Total(order: seq<string>, policies: seq<Policy>): int {
    if order == [] then 0 else Priority(policies, order[0]) + Total(order[1..], policies)
  }

  /** The type that holds ticket r when tickets are handed out in the given order. */
  function Draw(order: seq<string>, policies: seq<Policy>, r: int): Option<string> {
    if order == [] then None
    else if r < Priority(policies, order[0]) then Some(order[0])
    else Draw(order[1..], policies, r - Priority(policies, order[0]))
  }

  /** The tickets that win for a type. */
  function Tickets(order: seq<string>, policies: seq<Policy>, n: nat, t: string): set<int> {
    set r | 0 <= r < n && Draw(order, policies, r) == Some(t)
  }

  lemma OneMoreJob(metrics: seq<Metric>, jobs: seq<JobSpec>, job: JobSpec)
    ensures |WithInFlight(metrics, jobs + [job])| == |WithInFlight(metrics, jobs)| == |metrics|
    ensures forall i :: 0 <= i < |metrics| ==>
              var was := WithInFlight(metrics, jobs)[i];
              WithInFlight(metrics, jobs + [job])[i] ==
              if metrics[i].tupleType == job.tupleType && IsFirst(metrics, i)
              then was.(available := was.available + job.count) else was
  {
    assert (jobs + [job])[..|jobs|] == jobs;
  }

  /** The rows after adding a job's tuples at the first row of its type, if there is one. */
  function Added(rows: seq<Metric>, idx: nat, job: JobSpec): seq<Metric> {
    if idx < |rows| then rows[idx := rows[idx].(available := rows[idx].available + job.count)] else rows
  }

  predicate IsFirstOf(rows: seq<Metric>, idx: nat, t: string) {
    && idx <= |rows| && (forall k :: 0 <= k < idx ==> rows[k].tupleType != t)
    && (idx < |rows| ==> rows[idx].tupleType == t)
  }

  lemma AddedInFlight(metrics: seq<Metric>, jobs: seq<JobSpec>, job: JobSpec, idx: nat)
    requires IsFirstOf(WithInFlight(metrics, jobs), idx, job.tupleType)
    ensures Added(WithInFlight(metrics, jobs), idx, job) == WithInFlight(metrics, jobs + [job])
  {
    OneMoreJob(metrics, jobs, job);
    var rows := WithInFlight(metrics, jobs);
    forall i | 0 <= i < |rows| ensures Added(rows, idx, job)[i] == WithInFlight(metrics, jobs + [job])[i] {
      assert forall k :: 0 <= k < |rows| ==> rows[k].tupleType == metrics[k].tupleType;
      if i == idx {
        assert IsFirst(metrics, i);
      } else if i > idx {
        assert metrics[idx].tupleType == job.tupleType;
      }
    }
  }

  /** Add the tuples of a job to the first row of its type, if there is one. */
  method AddInFlight(rows: array<Metric>, job: JobSpec) returns (idx: nat)
    modifies rows
    ensures IsFirstOf(old(rows[..]), idx, job.tupleType)
    ensures var was := old(rows[..]);
            rows[..] == if idx < |was| then was[idx := was[idx].(available := was[idx].available + job.count)] else was
  {
    idx := 0;
    while idx < rows.Length
      invariant idx <= rows.Length && rows[..] == old(rows[..])
      invariant forall k :: 0 <= k < idx ==> rows[k].tupleType != job.tupleType
    {
      if job.tupleType == rows[idx].tupleType {
        rows[idx] := rows[idx].(available := rows[idx].available + job.count);
        return;
      }
      idx := idx + 1;
    }
  }

  lemma NothingInFlight(metrics: seq<Metric>)
    ensures WithInFlight(metrics, []) == metrics
  {
  }

  method Rows(telemetry: seq<Metric>, activeJobs: seq<JobSpec>) returns (rows: array<Metric>)
    ensures fresh(rows) && rows[..] == WithInFlight(telemetry, activeJobs)
  {
    rows := new Metric[|telemetry|](i requires 0 <= i < |telemetry| => telemetry[i]);
    assert rows[..] == telemetry;
    AddAll(rows, activeJobs);
  }

  method AddAll(rows: array<Metric>, jobs: seq<JobSpec>)
    modifies rows
    ensures rows[..] == WithInFlight(old(rows[..]), jobs)
  {
    ghost var metrics := rows[..];
    NothingInFlight(metrics);
    assert jobs[..0] == [];
    for k := 0 to |jobs|
      invariant rows[..] == WithInFlight(metrics, jobs[..k])
    {
      ghost var was := rows[..];
      var idx := AddInFlight(rows, jobs[k]);
      NextInFlight(metrics, jobs, k, was, idx, rows[..]);
    }
    assert jobs[..|jobs|] == jobs;
  }

  lemma NextInFlight(metrics: seq<Metric>, jobs: seq<JobSpec>, k: nat, was: seq<Metric>, idx: nat, now: seq<Metric>)
    requires k < |jobs| && was == WithInFlight(metrics, jobs[..k]) && IsFirstOf(was, idx, jobs[k].tupleType)
    requires now == Added(was, idx, jobs[k])
    ensures now == WithInFlight(metrics, jobs[..k + 1])
  {
    assert jobs[..k + 1] == jobs[..k] + [jobs[k]];
    AddedInFlight(metrics, jobs[..k], jobs[k], idx);
  }

  ghost predicate IsPolicyMap(byType: map<string, Policy>, policies: seq<Policy>) {
    forall t :: (t in byType <==> PolicyOf(policies, t).Some?) && (t in byType ==> Some(byType[t]) == PolicyOf(policies, t))
  }

  method PoliciesByType(policies: seq<Policy>) returns (byType: map<string, Policy>)
    ensures IsPolicyMap(byType, policies)
    ensures forall t :: t in byType <==> exists x :: x in policies && x.tupleType == t
    ensures forall t, k :: Governs(policies, k, t) ==> t in byType && byType[t] == policies[k]
  {
    byType := map[];
    for i := 0 to |policies|
      invariant IsPolicyMap(byType, policies[..i])
    {
      byType := byType[policies[i].tupleType := policies[i]];
      assert policies[..i + 1][..i] == policies[..i];
    }
    assert policies[..|policies|] == policies;
    forall t ensures t in byType <==> exists x :: x in policies && x.tupleType == t
             ensures forall k :: Governs(policies, k, t) ==> t in byType && byType[t] == policies[k]
    {
      PolicyGoverns(policies, t);
    }
  }

  /** A source of random numbers, like Intn: one below the given bound, which must be positive. */
  ghost predicate IsRandom(random: int -> int) {
    forall n :: n > 0 ==> 0 <= random(n) < n
  }

  /** The types with a row below the threshold, and the sum of the priorities over such rows. */
  method BelowThreshold(rows: array<Metric>, policyByType: map<string, Policy>, ghost policies: seq<Policy>)
    returns (weightSum: int, belowThreshold: map<string, Metric>)
    requires IsPolicyMap(policyByType, policies)
    ensures weightSum == WeightSum(rows[..], policies)
    ensures belowThreshold.Keys == EligibleTypes(rows[..], policies) && belowThreshold.Keys <= policyByType.Keys
  {
    weightSum, belowThreshold := 0, map[];
    for i := 0 to rows.Length
      invariant weightSum == WeightSum(rows[..i], policies)
      invariant belowThreshold.Keys == EligibleTypes(rows[..i], policies)
      invariant belowThreshold.Keys <= policyByType.Keys
    {
      var m := rows[i];
      assert rows[..i + 1] == rows[..i] + [m] && rows[..i + 1][..i] == rows[..i];
      EligibleMore(rows[..i], m, policies);
      if m.tupleType in policyByType {
        var policy := policyByType[m.tupleType];
        if m.available < policy.threshold {
          weightSum := weightSum + policy.priority;
          belowThreshold := belowThreshold[m.tupleType := m];
        }
      }
    }
    assert rows[..rows.Length] == rows[..];
  }

  /** Schedule picks the winner of a draw among the eligible types. The order in which a map is visited is arbitrary; it
      is returned as a ghost. Intn panics on an empty range: the range is not empty. */
  method Schedule(telemetry: seq<Metric>, policies: seq<Policy>, activeJobs: seq<JobSpec>, random: int -> int)
    returns (selected: Option<string>, ghost order: seq<string>, ghost r: int)
    requires Positive(policies) && IsRandom(random)
    ensures order != [] ==> r == random(WeightSum(WithInFlight(telemetry, activeJobs), policies))
    ensures var rows := WithInFlight(telemetry, activeJobs);
            && IsOrder(order, EligibleTypes(rows, policies))
            && (order == [] ==> selected == None)
            && (order != [] ==> 0 <= r < WeightSum(rows, policies) && selected == Draw(order, policies, r))
  {
    var t := Rows(telemetry, activeJobs);
    ghost var rows := t[..];
    var policyByType := PoliciesByType(policies);
    var weightSum, belowThreshold := BelowThreshold(t, policyByType, policies);
    selected, order, r := None, [], 0;
    if belowThreshold.Keys == {} {
      return;
    }
    WeightIsPositive(rows, policies);
    var ticket := random(weightSum);
    var visited := VisitOrder(belowThreshold.Keys);
    selected := DrawTicket(visited, policyByType, policies, ticket);
    order, r := visited, ticket;
    EmptyOrder(order, belowThreshold.Keys);
  }

  /** The keys of a map in the arbitrary order in which they are visited. */
  method VisitOrder(keys: set<string>) returns (order: seq<string>)
    ensures IsOrder(order, keys)
  {
    order := [];
    var rest := keys;
    while rest != {}
      invariant rest <= keys && IsOrder(order, keys - rest)
      decreases |rest|
    {
      var t :| t in rest;
      OrderMore(order, keys - rest, t);
      rest := rest - {t};
      assert keys - rest == (keys - rest - {t}) + {t};
      order := order + [t];
    }
    assert keys - rest == keys;
  }

  /** Visit the eligible types and stop at the one that holds the ticket. */
  method DrawTicket(order: seq<string>, policyByType: map<string, Policy>, ghost policies: seq<Policy>, r: int)
    returns (selected: Option<string>)
    requires IsPolicyMap(policyByType, policies) && forall t :: t in order ==> t in policyByType
    ensures selected == Draw(order, policies, r)
  {
    var current := 0;
    for i := 0 to |order|
      invariant Draw(order, policies, r) == Draw(order[i..], policies, r - current)
    {
      assert order[i..][0] == order[i] && order[i..][1..] == order[i + 1..] && order[i] in order;
      var policy := policyByType[order[i]];
      current := current + policy.priority;
      if r < current {
        return Some(policy.tupleType);
      }
    }
    selected := None;
  }

  lemma EmptyOrder(order: seq<string>, keys: set<string>)
    requires IsOrder(order, keys)
    ensures order == [] <==> keys == {}
  {
    if order != [] {
      assert order[0] in keys;
    }
  }

  lemma OrderMore(order: seq<string>, keys: set<string>, t: string)
    requires IsOrder(order, keys) && t !in keys
    ensures IsOrder(order + [t], keys + {t})
  {
    assert forall i :: 0 <= i < |order| ==> order[i] in order;
  }

  lemma EligibleMore(rows: seq<Metric>, m: Metric, policies: seq<Policy>)
    ensures EligibleTypes(rows + [m], policies)
            == EligibleTypes(rows, policies) + if Eligible(m, policies) then {m.tupleType} else {}
  {
    var more := rows + [m];
    forall t | t in EligibleTypes(rows, policies) ensures t in EligibleTypes(more, policies) {
      var i :| 0 <= i < |rows| && Eligible(rows[i], policies) && rows[i].tupleType == t;
      assert more[i] == rows[i];
    }
    assert more[|rows|] == m;
  }

  lemma {:induction false} WeightIsPositive(rows: seq<Metric>, policies: seq<Policy>)
    requires Positive(policies)
    ensures WeightSum(rows, policies) >= 0
    ensures EligibleTypes(rows, policies) != {} ==> WeightSum(rows, policies) > 0
  {
    if rows != [] {
      var init, m := rows[..|rows| - 1], rows[|rows| - 1];
      WeightIsPositive(init, policies);
      EligibleMore(init, m, policies);
      assert rows == init + [m];
    }
  }

  // What the lottery promises.

  /** The tickets of a type are a range of as many numbers as its priority. */
  lemma {:induction false} TicketRange(order: seq<string>, policies: seq<Policy>, t: string) returns (low: int)
    requires Positive(policies) && t in order && forall i, k :: 0 <= i < k < |order| ==> order[i] != order[k]
    requires forall x :: x in order ==> PolicyOf(policies, x).Some?
    ensures 0 <= low && low + Priority(policies, t) <= Total(order, policies)
    ensures forall r :: 0 <= r ==> (Draw(order, policies, r) == Some(t) <==> low <= r < low + Priority(policies, t))
  {
    TotalIsNatural(order[1..], policies);
    if order[0] == t {
      low := 0;
      forall r | 0 <= r ensures Draw(order, policies, r) == Some(t) <==> r < Priority(policies, t) {
        DrawFrom(order[1..], policies, r - Priority(policies, t));
      }
    } else {
      low := TicketRange(order[1..], policies, t);
      var first := Priority(policies, order[0]);
      forall r | 0 <= r
        ensures Draw(order, policies, r) == Some(t) <==> low + first <= r < low + first + Priority(policies, t)
      {
        assert r >= first ==> (Draw(order[1..], policies, r - first) == Some(t) <==>
                               low <= r - first < low + Priority(policies, t));
      }
      low := low + first;
    }
  }

  lemma {:induction false} TotalIsNatural(order: seq<string>, policies: seq<Policy>)
    requires Positive(policies)
    ensures Total(order, policies) >= 0
  {
    if order != [] {
      TotalIsNatural(order[1..], policies);
    }
  }

  lemma {:induction false} DrawFrom(order: seq<string>, policies: seq<Policy>, r: int)
    ensures Draw(order, policies, r).Some? ==> Draw(order, policies, r).value in order
  {
    if order != [] && r >= Priority(policies, order[0]) {
      DrawFrom(order[1..], policies, r - Priority(policies, order[0]));
    }
  }

  ghost function Range(low: int, size: nat): (range: set<int>)
    ensures forall r :: r in range <==> low <= r < low + size
    ensures |range| == size
  {
    if size == 0 then {} else Range(low, size - 1) + {low + size - 1}
  }

  /** A draw finds nobody exactly for numbers beyond the tickets handed out. */
  lemma {:induction false} NobodyBeyondTotal(order: seq<string>, policies: seq<Policy>, r: int)
    requires Positive(policies) && r >= 0
    ensures Draw(order, policies, r).None? <==> r >= Total(order, policies)
  {
    if order != [] {
      if r < Priority(policies, order[0]) {
        TotalIsNatural(order[1..], policies);
      } else {
        NobodyBeyondTotal(order[1..], policies, r - Priority(policies, order[0]));
      }
    }
  }

  lemma {:induction false} TotalWithout(order: seq<string>, policies: seq<Policy>, k: nat)
    requires k < |order|
    ensures Total(order, policies) == Priority(policies, order[k]) + Total(order[..k] + order[k + 1..], policies)
  {
    if k == 0 {
      assert order[..0] + order[1..] == order[1..];
    } else {
      TotalWithout(order[1..], policies, k - 1);
      var less := order[..k] + order[k + 1..];
      assert less[0] == order[0] && less[1..] == order[1..][..k - 1] + order[1..][k..];
    }
  }

  /** The sum of weights is the number of tickets handed out, unless an eligible type has several rows; then it is
      larger. */
  lemma {:induction false} WeightAgainstTotal(rows: seq<Metric>, policies: seq<Policy>, order: seq<string>)
    requires Positive(policies) && IsOrder(order, EligibleTypes(rows, policies))
    ensures WeightSum(rows, policies) >= Total(order, policies)
    ensures WeightSum(rows, policies) == Total(order, policies) <==> EligibleDistinct(rows, policies)
  {
    if rows == [] {
      EmptyOrder(order, EligibleTypes(rows, policies));
    } else {
      var init, m := rows[..|rows| - 1], rows[|rows| - 1];
      assert rows == init + [m];
      EligibleMore(init, m, policies);
      if !Eligible(m, policies) {
        WeightAgainstTotal(init, policies, order);
        DistinctMore(init, m, policies);
      } else if m.tupleType in EligibleTypes(init, policies) {
        WeightAgainstTotal(init, policies, order);
        DistinctMore(init, m, policies);
      } else {
        var k :| 0 <= k < |order| && order[k] == m.tupleType;
        var less := order[..k] + order[k + 1..];
        forall t ensures t in less <==> t in EligibleTypes(init, policies) {
          if t in order && t != m.tupleType {
            var i :| 0 <= i < |order| && order[i] == t;
            assert less[if i < k then i else i - 1] == t;
          }
        }
        WeightAgainstTotal(init, policies, less);
        TotalWithout(order, policies, k);
        DistinctMore(init, m, policies);
      }
    }
  }

  lemma DistinctMore(rows: seq<Metric>, m: Metric, policies: seq<Policy>)
    ensures EligibleDistinct(rows + [m], policies) <==>
            EligibleDistinct(rows, policies) && !(Eligible(m, policies) && m.tupleType in EligibleTypes(rows, policies))
  {
    var more := rows + [m];
    assert forall i :: 0 <= i < |rows| ==> more[i] == rows[i];
    assert more[|rows|] == m;
  }

  /** Exactness: if no eligible type has two rows then, for every order of visiting the types, each eligible type wins
      with exactly as many of the numbers that can be drawn as its priority, and every number has a winner. */
  lemma LotteryIsExact(rows: seq<Metric>, policies: seq<Policy>, order: seq<string>)
    requires Positive(policies) && EligibleDistinct(rows, policies)
    requires IsOrder(order, EligibleTypes(rows, policies))
    ensures WeightSum(rows, policies) >= 0
    ensures var n := WeightSum(rows, policies);
            && (forall t :: t in EligibleTypes(rows, policies) ==> exists k :: Governs(policies, k, t))
            && (forall t, k :: t in EligibleTypes(rows, policies) && Governs(policies, k, t) ==>
                  |Tickets(order, policies, n, t)| == policies[k].priority > 0)
            && (forall r :: 0 <= r < n ==> Draw(order, policies, r).Some?
                                           && Draw(order, policies, r).value in EligibleTypes(rows, policies))
  {
    var n := WeightSum(rows, policies);
    WeightIsPositive(rows, policies);
    WeightAgainstTotal(rows, policies, order);
    forall t | t in EligibleTypes(rows, policies)
      ensures |Tickets(order, policies, n, t)| == Priority(policies, t) > 0
      ensures exists k :: Governs(policies, k, t)
      ensures forall k :: Governs(policies, k, t) ==> Priority(policies, t) == policies[k].priority
    {
      var low := TicketRange(order, policies, t);
      assert Tickets(order, policies, n, t) == Range(low, Priority(policies, t));
      PolicyGoverns(policies, t);
    }
    forall r | 0 <= r < n
      ensures Draw(order, policies, r).Some? && Draw(order, policies, r).value in EligibleTypes(rows, policies)
    {
      NobodyBeyondTotal(order, policies, r);
      DrawFrom(order, policies, r);
    }
  }

  /** With several rows for an eligible type some numbers have no winner, and only then. */
  lemma EveryDrawWinsIff(rows: seq<Metric>, policies: seq<Policy>, order: seq<string>)
    requires Positive(policies) && IsOrder(order, EligibleTypes(rows, policies))
    ensures (forall r :: 0 <= r < WeightSum(rows, policies) ==> Draw(order, policies, r).Some?)
            <==> EligibleDistinct(rows, policies)
  {
    WeightAgainstTotal(rows, policies, order);
    TotalIsNatural(order, policies);
    forall r | 0 <= r ensures Draw(order, policies, r).None? <==> r >= Total(order, policies) {
      NobodyBeyondTotal(order, policies, r);
    }
    if !EligibleDistinct(rows, policies) {
      assert Draw(order, policies, Total(order, policies)).None?;
    }
  }

  /** With two rows for one eligible type of priority 1, numbers are drawn from a range of two, and 1 has no winner. */
  lemma TicketWithoutWinner(t: string) returns (telemetry: seq<Metric>, policies: seq<Policy>)
    ensures Positive(policies) && var rows := WithInFlight(telemetry, []);
            && IsOrder([t], EligibleTypes(rows, policies))
            && WeightSum(rows, policies) == 2 && Draw([t], policies, 1) == None
  {
    var row, policy := Metric(0, 0, t), Policy(t, 1, 1);
    telemetry, policies := [row, row], [policy];
    var rows := WithInFlight(telemetry, []);
    assert rows == [row, row];
    assert PolicyOf(policies, t) == Some(policy);
    assert rows[0] == row && Eligible(row, policies);
    assert rows[..1][..0] == [] && rows[..1][0] == row;
    assert WeightSum(rows[..1], policies) == 1;
    assert Draw([t], policies, 1) == Draw([t][1..], policies, 0);
  }

  /** A row of the type, with the tuples in flight if it is the first one, is below the threshold of its policy. */
  predicate IsShortRow(telemetry: seq<Metric>, jobs: seq<JobSpec>, policies: seq<Policy>, t: string, i: int, k: int) {
    && 0 <= i < |telemetry| && telemetry[i].tupleType == t && Governs(policies, k, t)
    && telemetry[i].available + (if IsFirst(telemetry, i) then InFlight(jobs, t) else 0) < policies[k].threshold
  }

  ghost predicate IsShort(telemetry: seq<Metric>, jobs: seq<JobSpec>, policies: seq<Policy>, t: string) {
    exists i, k :: IsShortRow(telemetry, jobs, policies, t, i, k)
  }

  /** For any telemetry, the eligible types are those that are short. */
  lemma EligibleIsShort(telemetry: seq<Metric>, policies: seq<Policy>, jobs: seq<JobSpec>, t: string)
    ensures t in EligibleTypes(WithInFlight(telemetry, jobs), policies) <==> IsShort(telemetry, jobs, policies, t)
  {
    var rows := WithInFlight(telemetry, jobs);
    if t in EligibleTypes(rows, policies) {
      var i :| 0 <= i < |rows| && Eligible(rows[i], policies) && rows[i].tupleType == t;
      RowIsShort(telemetry, policies, jobs, t, i);
    }
    if IsShort(telemetry, jobs, policies, t) {
      var i, k :| IsShortRow(telemetry, jobs, policies, t, i, k);
      RowIsShort(telemetry, policies, jobs, t, i);
      assert rows[i].tupleType == t;
    }
  }

  lemma RowIsShort(telemetry: seq<Metric>, policies: seq<Policy>, jobs: seq<JobSpec>, t: string, i: nat)
    requires i < |telemetry| && telemetry[i].tupleType == t
    ensures Eligible(WithInFlight(telemetry, jobs)[i], policies)
            <==> exists k :: IsShortRow(telemetry, jobs, policies, t, i, k)
  {
    PolicyGoverns(policies, t);
    var row := WithInFlight(telemetry, jobs)[i];
    assert row.tupleType == t
           && row.available == telemetry[i].available + (if IsFirst(telemetry, i) then InFlight(jobs, t) else 0);
    if Eligible(row, policies) {
      var k :| Governs(policies, k, t);
      assert IsShortRow(telemetry, jobs, policies, t, i, k);
    }
  }

  /** A telemetry with one row per type: what being eligible means for available and in-flight tuples. */
  lemma SelectedIsShort(telemetry: seq<Metric>, policies: seq<Policy>, jobs: seq<JobSpec>, t: string)
    requires forall i, k :: 0 <= i < k < |telemetry| ==> telemetry[i].tupleType != telemetry[k].tupleType
    ensures t in EligibleTypes(WithInFlight(telemetry, jobs), policies) <==>
            PolicyOf(policies, t).Some?
            && (exists i :: 0 <= i < |telemetry| && telemetry[i].tupleType == t
                            && telemetry[i].available + InFlight(jobs, t) < PolicyOf(policies, t).value.threshold)
    ensures EligibleDistinct(WithInFlight(telemetry, jobs), policies)
  {
    var rows := WithInFlight(telemetry, jobs);
    assert forall i :: 0 <= i < |telemetry| ==>
      rows[i] == telemetry[i].(available := telemetry[i].available + InFlight(jobs, telemetry[i].tupleType));
  }
}

/** The shared etcd store, seen as its revision-ordered log. The event at index i has revision i + 1; the
    value of a key is the fold of the log over that key. Jobs stand for namespaced job names (module EtcdKeys
    shows that the key strings of different jobs and players differ). */
module EtcdLog {
  import opened Wrappers

  /** idIsUuid: the id can be parsed as the identifier of a tuple chunk; users may choose any id. */
  datatype JobSpec = JobSpec(id: string, idIsUuid: bool, tupleType: string, count: int, generator: string)

  /** Unset is the empty state of a task resource whose status was never written. */
  datatype TaskState = Unset | Preparing | Launching | Generating | Provisioning | Completed | Failed
  datatype TaskStatus = TaskStatus(state: TaskState, endpoint: string)

  datatype Event =
    | RosterPut(job: nat, spec: JobSpec)
    | RosterDelete(job: nat)
    | EntryPut(job: nat, player: nat, status: TaskStatus)
    | EntryDelete(job: nat, player: nat)
    | HeadPut(player: nat, revision: nat)

  const BLANK := TaskStatus(Unset, "")
  const FIRST := TaskStatus(Preparing, "")

  /** True iff a watch on the roster prefix delivers the event; head revisions live under another prefix. */
  predicate IsRosterEvent(e: Event) {
    !e.HeadPut?
  }

  predicate Terminal(s: TaskState) {
    s == Completed || s == Failed
  }

  // The stored values: folds of the log.

  function Roster(log: seq<Event>, j: nat): Option<JobSpec> {
    if log == [] then None
    else
      var e := log[|log| - 1];
      if e.RosterPut? && e.job == j then Some(e.spec)
      else if e == RosterDelete(j) then None
      else Roster(log[..|log| - 1], j)
  }

  function Entry(log: seq<Event>, j: nat, q: nat): Option<TaskStatus> {
    if log == [] then None
    else
      var e := log[|log| - 1];
      if e.EntryPut? && e.job == j && e.player == q then Some(e.status)
      else if e == EntryDelete(j, q) then None
      else Entry(log[..|log| - 1], j, q)
  }

  function Head(log: seq<Event>, p: nat): nat {
    if log == [] then 0
    else
      var e := log[|log| - 1];
      if e.HeadPut? && e.player == p then e.revision else Head(log[..|log| - 1], p)
  }

  /** The endpoint a player has published for a job, "" if none. */
  function Published(log: seq<Event>, j: nat, q: nat): string {
    match Entry(log, j, q)
    case None => ""
    case Some(st) => st.endpoint
  }

  lemma Append(log: seq<Event>, e: Event)
    ensures forall j :: Roster(log + [e], j) ==
                        if e.RosterPut? && e.job == j then Some(e.spec)
                        else if e == RosterDelete(j) then None else Roster(log, j)
    ensures forall j, q :: Entry(log + [e], j, q) ==
                           if e.EntryPut? && e.job == j && e.player == q then Some(e.status)
                           else if e == EntryDelete(j, q) then None else Entry(log, j, q)
    ensures forall p :: Head(log + [e], p) == if e.HeadPut? && e.player == p then e.revision else Head(log, p)
  {
    assert (log + [e])[..|log|] == log;
  }

  // The events the operators write, and in which order.

  /** The transitions of a roster entry: publish an endpoint, possibly again, then move through the states. */
  predicate Edge(from: TaskStatus, to: TaskStatus) {
    match from.state
    case Preparing =>
      || (to.state == Preparing && to.endpoint != "")
      || (to == from.(state := Launching) && from.endpoint != "")
    case Launching => to == from.(state := Generating)
    case Generating => to == from.(state := Provisioning) || to == from.(state := Failed)
    case Provisioning => to == from.(state := Completed) || to == from.(state := Failed)
    case _ => false
  }

  function Rank(st: TaskStatus): nat {
    match st.state
    case Unset => 0
    case Preparing => if st.endpoint == "" then 1 else 2
    case Launching => 3
    case Generating => 4
    case Provisioning => 5
    case Completed => 6
    case Failed => 6
  }

  /** Two statuses of an entry that waits with a published endpoint. */
  predicate BothPublished(a: TaskStatus, b: TaskStatus) {
    a.state == Preparing == b.state && a.endpoint != "" && b.endpoint != ""
  }

  /** What may be appended to a log: no deletion, one roster per job before all its entries, entries moving along
      Edge only, head revisions never decreasing and never ahead of the log. */
  predicate ValidEvent(n: nat, log: seq<Event>, e: Event) {
    match e
    case RosterPut(j, _) => Roster(log, j).None?
    case EntryPut(j, q, st) =>
      && q < n
      && Roster(log, j).Some?
      && (match Entry(log, j, q)
          case None => st == FIRST
          case Some(now) => Edge(now, st))
    case HeadPut(p, r) => Head(log, p) <= r <= |log|
    case _ => false
  }

  predicate ValidLog(n: nat, log: seq<Event>) {
    log != [] ==>
      && ValidLog(n, log[..|log| - 1])
      && ValidEvent(n, log[..|log| - 1], log[|log| - 1])
  }

  lemma ValidAppend(n: nat, log: seq<Event>, e: Event)
    requires ValidLog(n, log) && ValidEvent(n, log, e)
    ensures ValidLog(n, log + [e])
  {
    assert (log + [e])[..|log|] == log;
  }

  lemma {:induction false} ValidPrefix(n: nat, log: seq<Event>, k: nat)
    requires ValidLog(n, log) && k <= |log|
    ensures ValidLog(n, log[..k])
    ensures k < |log| ==> ValidEvent(n, log[..k], log[k])
  {
    if k < |log| {
      if k < |log| - 1 {
        ValidPrefix(n, log[..|log| - 1], k);
      }
      assert log[..|log| - 1][..k] == log[..k];
    } else {
      assert log[..k] == log;
    }
  }

  /** Whatever etcd ever held for a player is still there or was overtaken, by a later stage or, while the entry is
      Preparing, by another endpoint. */
  lemma {:induction false} HeldIsOvertaken(n: nat, log: seq<Event>, j: nat, q: nat, st: TaskStatus)
    requires ValidLog(n, log) && EntryPut(j, q, st) in log
    ensures Entry(log, j, q).Some? && Roster(log, j).Some? && st.state != Unset && q < n
    ensures var now := Entry(log, j, q).value;
            && (now == st || Rank(st) < Rank(now) || BothPublished(st, now))
            && (st.endpoint != "" ==> now.endpoint != "")
            && (st.endpoint != "" && st.state != Preparing ==> now.endpoint == st.endpoint)
    ensures Terminal(st.state) ==> Entry(log, j, q) == Some(st)
  {
    var before, e := log[..|log| - 1], log[|log| - 1];
    assert log == before + [e];
    Append(before, e);
    if EntryPut(j, q, st) in before {
      HeldIsOvertaken(n, before, j, q, st);
    }
  }

  /** The stored value was put at some time and never has an unset state. */
  lemma {:induction false} EntryWasPut(n: nat, log: seq<Event>, j: nat, q: nat)
    requires ValidLog(n, log) && Entry(log, j, q).Some?
    ensures EntryPut(j, q, Entry(log, j, q).value) in log
    ensures Roster(log, j).Some? && Entry(log, j, q).value.state != Unset && q < n
  {
    var before, e := log[..|log| - 1], log[|log| - 1];
    assert log == before + [e];
    Append(before, e);
    if Entry(before, j, q).Some? {
      EntryWasPut(n, before, j, q);
    }
  }

  /** The first value of every entry is FIRST, whatever came later. */
  lemma {:induction false} FirstWasPut(n: nat, log: seq<Event>, j: nat, q: nat)
    requires ValidLog(n, log) && Entry(log, j, q).Some?
    ensures EntryPut(j, q, FIRST) in log
  {
    var before, e := log[..|log| - 1], log[|log| - 1];
    assert log == before + [e];
    Append(before, e);
    if Entry(before, j, q).Some? {
      FirstWasPut(n, before, j, q);
    }
  }

  /** Folding a longer log: the later part wins where it says something. */
  lemma {:induction false} EntryConcat(a: seq<Event>, b: seq<Event>, j: nat, q: nat)
    requires forall e :: e in a + b ==> !e.EntryDelete?
    ensures Entry(a + b, j, q) == if Entry(b, j, q).Some? then Entry(b, j, q) else Entry(a, j, q)
  {
    if b == [] {
      assert a + b == a;
    } else {
      var before, e := b[..|b| - 1], b[|b| - 1];
      assert b == before + [e] && a + b == (a + before) + [e];
      Append(before, e);
      Append(a + before, e);
      EntryConcat(a, before, j, q);
    }
  }

  lemma {:induction false} RosterConcat(a: seq<Event>, b: seq<Event>, j: nat)
    requires forall e :: e in a + b ==> !e.RosterDelete?
    ensures Roster(a + b, j) == if Roster(b, j).Some? then Roster(b, j) else Roster(a, j)
  {
    if b == [] {
      assert a + b == a;
    } else {
      var before, e := b[..|b| - 1], b[|b| - 1];
      assert b == before + [e] && a + b == (a + before) + [e];
      Append(before, e);
      Append(a + before, e);
      RosterConcat(a, before, j);
    }
  }

  lemma {:induction false} NoDeletes(n: nat, log: seq<Event>)
    requires ValidLog(n, log)
    ensures forall e :: e in log ==> !e.EntryDelete? && !e.RosterDelete?
  {
    if log != [] {
      NoDeletes(n, log[..|log| - 1]);
      assert log == log[..|log| - 1] + [log[|log| - 1]];
    }
  }

  /** Replaying a suffix of a log of PUTs on top of that log changes no stored value. */
  lemma ReplayIdempotent(n: nat, log: seq<Event>, from: nat, j: nat, q: nat)
    requires ValidLog(n, log) && from <= |log|
    ensures Entry(log + log[from..], j, q) == Entry(log, j, q)
  {
    NoDeletes(n, log);
    EntryConcat(log, log[from..], j, q);
    EntryConcat(log[..from], log[from..], j, q);
    assert log[..from] + log[from..] == log;
  }
}

/** The pairwise exchange of key shares and seeds between N players. Every player first serves the lower-numbered
    players in ascending order and then connects to the higher-numbered ones in descending order. A session between a
    connecting player and a player waiting for a connection is one step; a server turns a client away if its number is
    not the one it waits for. */
module Exchange {
  import opened HexSeed

  datatype Position = Serving(other: nat) | Connecting(other: nat) | Done
  datatype Share = Share(keyP: string, key2: string)
  datatype Player = Player(position: Position, keysP: seq<string>, keys2: seq<string>, seed: string)

  /** rejected: some server turned a client away. */
  datatype State = State(players: seq<Player>, rejected: bool)

  /** Where a player goes on after the server role. */
  function AfterServing(n: nat, p: nat): Position {
    if p + 1 < n then Connecting(n - 1) else Done
  }

  function First(n: nat, p: nat): Position {
    if p > 0 then Serving(0) else AfterServing(n, p)
  }

  /** The players after local attestation: own shares and a random seed; the other table entries are arbitrary. */
  ghost predicate IsInit(n: nat, shares: seq<Share>, seeds: seq<string>, s: State) {
    && |shares| == n && |seeds| == n && |s.players| == n && !s.rejected
    && forall p :: 0 <= p < n ==>
         var x := s.players[p];
         && x.position == First(n, p) && |x.keysP| == n && |x.keys2| == n
         && x.keysP[p] == shares[p].keyP && x.keys2[p] == shares[p].key2
         && x.seed == seeds[p] && IsSeed(seeds[p])
  }

  /** A client and a server that waits for a connection meet. */
  predicate Enabled(s: State, i: nat, j: nat) {
    && i < |s.players| && j < |s.players|
    && s.players[i].position == Connecting(j) && s.players[j].position.Serving?
  }

  function Received(x: Player, other: nat, keyP: string, key2: string, seed: string, position: Position): Player
    requires other < |x.keysP| && other < |x.keys2|
  {
    Player(position, x.keysP[other := keyP], x.keys2[other := key2], AddHex(x.seed, seed))
  }

  predicate Tables(s: State) {
    forall p :: 0 <= p < |s.players| ==> |s.players[p].keysP| == |s.players| && |s.players[p].keys2| == |s.players|
  }

  /** A session between client i and server j. Each sends its own share and its seed and adds the other's seed. */
  function Session(s: State, i: nat, j: nat): State
    requires Enabled(s, i, j) && Tables(s)
  {
    var n := |s.players|;
    var c, v := s.players[i], s.players[j];
    if v.position.other != i then s.(rejected := true)
    else
      var nextI := if j > i + 1 then Connecting(j - 1) else Done;
      var nextJ := if i + 1 < j then Serving(i + 1) else AfterServing(n, j);
      s.(players := s.players
           [i := Received(c, j, v.keysP[j], v.keys2[j], v.seed, nextI)]
           [j := Received(v, i, c.keysP[i], c.keys2[i], c.seed, nextJ)])
  }

  // The schedule.

  /** The sessions from (a, b) on: player a down to a + 1, then the next client from the top. */
  function From(n: nat, a: nat, b: nat): seq<(nat, nat)>
    requires n > 0 && b < n
    decreases n - a, b
  {
    if a + 1 >= n then []
    else if b <= a then From(n, a + 1, n - 1)
    else [(a, b)] + From(n, a, b - 1)
  }

  function Schedule(n: nat): seq<(nat, nat)>
    requires n > 0
  {
    From(n, 0, n - 1)
  }

  /** Twice the number of sessions that remain at (a, b). */
  lemma {:induction false} FromLength(n: nat, a: nat, b: nat)
    requires n > 0 && a <= b < n
    ensures 2 * |From(n, a, b)| == 2 * (b - a) + (n - 1 - a) * (n - 2 - a)
    decreases n - a, b
  {
    if a + 1 < n {
      if b <= a {
        FromLength(n, a + 1, n - 1);
        RoundLength(n - 1 - a);
      } else {
        FromLength(n, a, b - 1);
      }
    }
  }

  lemma RoundLength(k: int)
    ensures 2 * (k - 1) + (k - 1) * (k - 2) == k * (k - 1)
  {
  }

  /** The players that player p meets in some sessions, in order. */
  function PeersOf(sessions: seq<(nat, nat)>, p: nat): seq<nat> {
    if sessions == [] then []
    else
      var (client, server) := sessions[0];
      (if client == p then [server] else if server == p then [client] else []) + PeersOf(sessions[1..], p)
  }

  /** The numbers from low to below high, ascending and descending. */
  function Up(low: nat, high: nat): (r: seq<nat>)
    ensures |r| == if low <= high then high - low else 0
    ensures forall k :: 0 <= k < |r| ==> r[k] == low + k
    decreases high - low
  {
    if low < high then [low] + Up(low + 1, high) else []
  }

  function Down(low: nat, high: nat): (r: seq<nat>)
    ensures |r| == if low <= high then high - low else 0
    ensures forall k :: 0 <= k < |r| ==> r[k] == high - 1 - k
  {
    if low < high then [high - 1] + Down(low, high - 1) else []
  }

  /** The peers that remain from (a, b) on. */
  function Remaining(n: nat, a: nat, b: nat, p: nat): seq<nat> {
    if p < a then []
    else if p == a then Down(a + 1, b + 1)
    else Up(if p <= b then a else a + 1, p) + Down(p + 1, n)
  }

  lemma RemainingMore(n: nat, a: nat, b: nat, p: nat)
    requires a < b < n && p < n
    ensures Remaining(n, a, b, p)
            == (if a == p then [b] else if b == p then [a] else []) + Remaining(n, a, b - 1, p)
  {
  }

  lemma RemainingRound(n: nat, a: nat, p: nat)
    requires a + 1 < n && p < n
    ensures Remaining(n, a, a, p) == Remaining(n, a + 1, n - 1, p)
    ensures From(n, a, a) == From(n, a + 1, n - 1)
  {
  }

  lemma PeersMore(first: (nat, nat), rest: seq<(nat, nat)>, p: nat)
    ensures PeersOf([first] + rest, p)
            == (if first.0 == p then [first.1] else if first.1 == p then [first.0] else []) + PeersOf(rest, p)
  {
    assert ([first] + rest)[1..] == rest;
  }

  lemma {:induction false} PeersFrom(n: nat, a: nat, b: nat, p: nat)
    requires a <= b < n && p < n
    ensures PeersOf(From(n, a, b), p) == Remaining(n, a, b, p)
    decreases n - a, b
  {
    if a + 1 < n {
      if b == a {
        PeersFrom(n, a + 1, n - 1, p);
        RemainingRound(n, a, p);
      } else {
        PeersFrom(n, a, b - 1, p);
        assert From(n, a, b) == [(a, b)] + From(n, a, b - 1);
        PeersMore((a, b), From(n, a, b - 1), p);
        RemainingMore(n, a, b, p);
      }
    }
  }

  /** Every player meets the lower-numbered players in ascending order and then the higher-numbered ones in descending
      order. */
  lemma SchedulePeers(n: nat, p: nat)
    requires p < n
    ensures PeersOf(Schedule(n), p) == Up(0, p) + Down(p + 1, n)
  {
    PeersFrom(n, 0, n - 1, p);
  }

  // Runs.

  /** Sessions that are possible one after the other. */
  predicate IsRun(s: State, sessions: seq<(nat, nat)>)
    requires Tables(s)
    decreases |sessions|
  {
    sessions != [] ==>
      && Enabled(s, sessions[0].0, sessions[0].1)
      && Tables(Session(s, sessions[0].0, sessions[0].1))
      && IsRun(Session(s, sessions[0].0, sessions[0].1), sessions[1..])
  }

  function After(s: State, sessions: seq<(nat, nat)>): (t: State)
    requires Tables(s) && IsRun(s, sessions)
    ensures Tables(t) && |t.players| == |s.players|
    decreases |sessions|
  {
    if sessions == [] then s else After(Session(s, sessions[0].0, sessions[0].1), sessions[1..])
  }

  // Positions at the point where the next session is (a, b).

  function PositionAt(n: nat, a: nat, b: nat, p: nat): Position {
    if p < a || a + 1 >= n then Done
    else if p == a then Connecting(b)
    else Serving(if p <= b then a else a + 1)
  }

  /** (a, b) is a session or, with a = n - 1, the end. */
  predicate IsPoint(n: nat, a: nat, b: nat) {
    n > 0 && ((a < b < n) || (a == n - 1 == b))
  }

  ghost predicate At(n: nat, a: nat, b: nat, s: State) {
    && IsPoint(n, a, b) && |s.players| == n && Tables(s) && !s.rejected
    && forall p :: 0 <= p < n ==> s.players[p].position == PositionAt(n, a, b, p)
  }

  function Next(n: nat, a: nat, b: nat): (nat, nat)
    requires IsPoint(n, a, b) && a + 1 < n
  {
    if b > a + 1 then (a, b - 1) else (a + 1, n - 1)
  }

  /** At every point exactly the scheduled session is possible, and its server does not turn the client away. */
  lemma OnlyScheduled(n: nat, a: nat, b: nat, s: State, i: nat, j: nat)
    requires At(n, a, b, s)
    ensures Enabled(s, i, j) <==> a + 1 < n && i == a && j == b
    ensures Enabled(s, i, j) ==> s.players[j].position.other == i
  {
  }

  lemma SessionAdvances(n: nat, a: nat, b: nat, s: State)
    requires At(n, a, b, s) && a + 1 < n
    ensures Enabled(s, a, b) && At(n, Next(n, a, b).0, Next(n, a, b).1, Session(s, a, b))
    ensures From(n, a, b) == [(a, b)] + From(n, Next(n, a, b).0, Next(n, a, b).1)
  {
    OnlyScheduled(n, a, b, s, a, b);
    var t := Session(s, a, b);
    var (a', b') := Next(n, a, b);
    forall p | 0 <= p < n ensures t.players[p].position == PositionAt(n, a', b', p) {
      assert s.players[p].position == PositionAt(n, a, b, p);
    }
    if b == a + 1 {
      assert From(n, a, a) == From(n, a + 1, n - 1);
    }
  }

  predicate AllDone(s: State) {
    forall p :: 0 <= p < |s.players| ==> s.players[p].position == Done
  }

  lemma {:induction false} RunFollows(n: nat, a: nat, b: nat, s: State, sessions: seq<(nat, nat)>)
    returns (a': nat, b': nat)
    requires At(n, a, b, s) && IsRun(s, sessions)
    ensures At(n, a', b', After(s, sessions))
    ensures From(n, a, b) == sessions + From(n, a', b')
    decreases |sessions|
  {
    a', b' := a, b;
    if sessions != [] {
      OnlyScheduled(n, a, b, s, sessions[0].0, sessions[0].1);
      SessionAdvances(n, a, b, s);
      var next := Next(n, a, b);
      a', b' := RunFollows(n, next.0, next.1, Session(s, a, b), sessions[1..]);
      assert sessions == [(a, b)] + sessions[1..];
    }
  }

  lemma InitPoint(n: nat, shares: seq<Share>, seeds: seq<string>, s: State)
    requires n > 0 && IsInit(n, shares, seeds, s)
    ensures At(n, 0, n - 1, s)
  {
  }

  /** The exchange schedule: every run goes through the schedule in order, no server turns a client away, a run that is
      not finished can go on, and a finished one has had all n(n-1)/2 sessions. */
  lemma ExchangeSchedule(n: nat, shares: seq<Share>, seeds: seq<string>, s: State, sessions: seq<(nat, nat)>)
    requires n > 0 && IsInit(n, shares, seeds, s) && Tables(s) && IsRun(s, sessions)
    ensures sessions <= Schedule(n)
    ensures !After(s, sessions).rejected
    ensures AllDone(After(s, sessions)) <==> sessions == Schedule(n)
    ensures AllDone(After(s, sessions)) <==> 2 * |sessions| == n * (n - 1)
    ensures !AllDone(After(s, sessions)) ==> exists i, j :: Enabled(After(s, sessions), i, j)
  {
    InitPoint(n, shares, seeds, s);
    var a, b := RunFollows(n, 0, n - 1, s, sessions);
    var t := After(s, sessions);
    FromLength(n, 0, n - 1);
    RoundLength(n);
    if a + 1 < n {
      OnlyScheduled(n, a, b, t, a, b);
      assert t.players[a].position == Connecting(b);
      assert |From(n, a, b)| > 0;
    } else {
      assert From(n, a, b) == [];
    }
  }
}

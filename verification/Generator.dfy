/** One player of the exchange as it is coded: the accept loop, the connect loop, and the files with the key shares. */
module Generator {
  import opened Text
  import opened HexSeed
  import opened Exchange
  import opened ExchangeResult

  /** A packed secret share, and what a client sends on a connection: job and number, then its secret share. */
  datatype Message = Message(keyP: string, key2: string, seed: string)
  datatype Hello = Hello(jobId: string, number: int, message: Message)

  /** Failed: the network or the peer failed; Refused: the client's job or number is not the expected one. */
  datatype Outcome = Completed | Failed | Refused

  function VerifyPlayerDetails(jobId: string, number: int, ownJobId: string, other: int): int {
    if jobId == ownJobId && number == other then 0 else -1
  }

  /** How seeds are added: AddHex, of which both roles have a copy. */
  type Addition = (string, string) -> string

  ghost predicate IsAddHex(add: Addition) {
    forall x, y {:trigger AddHex(x, y)} :: add(x, y) == AddHex(x, y)
  }

  lemma AddsSeeds(add: Addition, x: string, y: string, v: nat, w: nat)
    requires IsAddHex(add) && Stands(x, v) && Stands(y, w)
    ensures Stands(add(x, y), v + w)
  {
    StandsForSum(x, y, v, w);
  }

  /** The seed after adding the seeds of the first k messages in turn. */
  function SeedAfter(add: Addition, seed: string, messages: seq<Message>, k: nat): string
    requires k <= |messages|
  {
    if k == 0 then seed else add(SeedAfter(add, seed, messages, k - 1), messages[k - 1].seed)
  }

  function Messages(clients: seq<Hello>): seq<Message> {
    seq(|clients|, i requires 0 <= i < |clients| => clients[i].message)
  }

  function SumOfFirst(w: seq<nat>, k: nat): nat
    requires k <= |w|
  {
    if k == 0 then 0 else SumOfFirst(w, k - 1) + w[k - 1]
  }

  /** Whatever the seeds are, the result is the sum of all of them. */
  lemma {:induction false} SeedAfterIsSum(add: Addition, seed: string, messages: seq<Message>, k: nat,
                                          v: nat, w: seq<nat>)
    requires IsAddHex(add) && Stands(seed, v) && k <= |w| == |messages|
    requires forall i :: 0 <= i < |messages| ==> Stands(messages[i].seed, w[i])
    ensures Stands(SeedAfter(add, seed, messages, k), v + SumOfFirst(w, k))
  {
    if k > 0 {
      SeedAfterIsSum(add, seed, messages, k - 1, v, w);
      AddsSeeds(add, SeedAfter(add, seed, messages, k - 1), messages[k - 1].seed, v + SumOfFirst(w, k - 1), w[k - 1]);
    }
  }

  /** The first connections come from players 0, 1, .. for this job. */
  predicate Honest(clients: seq<Hello>, jobId: string, upto: nat)
    requires upto <= |clients|
  {
    forall k :: 0 <= k < upto ==> clients[k].jobId == jobId && clients[k].number == k
  }

  /** Some connection is not the expected one, and those before it are. */
  ghost predicate TurnsAway(me: nat, jobId: string, clients: seq<Hello>) {
    exists k: nat :: k < me && k < |clients| && Honest(clients, jobId, k)
                     && (clients[k].jobId != jobId || clients[k].number != k)
  }

  /** All lower-numbered players connect, in ascending order and for this job, and all higher-numbered ones answer. */
  ghost predicate Completes(me: nat, n: nat, jobId: string, clients: seq<Hello>, servers: seq<Message>) {
    me < n && me <= |clients| && n - 1 - me <= |servers| && Honest(clients, jobId, me)
  }

  /** On every connection a player sends its own share and the seed as it is then. */
  ghost predicate Sends(add: Addition, own: Share, seed: string, messages: seq<Message>, sent: seq<Message>) {
    && |sent| <= |messages|
    && forall k :: 0 <= k < |sent| ==> sent[k] == Message(own.keyP, own.key2, SeedAfter(add, seed, messages, k))
  }

  /** What a player that runs to completion sends: to lower-numbered players while it serves them, and to
      higher-numbered ones, with the seed that this has led to. */
  ghost predicate Ran(add: Addition, own: Share, seed: string, me: nat, n: nat, served: seq<Message>,
                      connected: seq<Message>, toClients: seq<Message>, toServers: seq<Message>) {
    && me < n && me <= |served| && |toClients| == me && Sends(add, own, seed, served, toClients)
    && n - 1 - me <= |connected| && |toServers| == n - 1 - me
    && Sends(add, own, SeedAfter(add, seed, served, me), connected, toServers)
  }

  function FinalSeed(add: Addition, seed: string, me: nat, n: nat, served: seq<Message>,
                     connected: seq<Message>): string
    requires me < n && me <= |served| && n - 1 - me <= |connected|
  {
    SeedAfter(add, SeedAfter(add, seed, served, me), connected, n - 1 - me)
  }

  /** The entries of both tables. */
  datatype Tables = Tables(p: seq<string>, b: seq<string>)

  /** The first k entries are the received ones, the others are as before. */
  ghost predicate LowEntries(before: Tables, after: Tables, messages: seq<Message>, k: nat) {
    && k <= |messages| && |before.p| == |before.b| == |after.p| == |after.b|
    && (forall i :: 0 <= i < |before.p| ==>
          && after.p[i] == (if i < k then messages[i].keyP else before.p[i])
          && after.b[i] == (if i < k then messages[i].key2 else before.b[i]))
  }

  /** The last k entries are the received ones, in descending order, the others are as before. */
  ghost predicate HighEntries(before: Tables, after: Tables, messages: seq<Message>, k: nat) {
    var n := |before.p|;
    && k <= |messages| && |before.b| == |after.p| == |after.b| == n
    && (forall i :: 0 <= i < n ==>
          && after.p[i] == (if i >= n - k then messages[n - 1 - i].keyP else before.p[i])
          && after.b[i] == (if i >= n - k then messages[n - 1 - i].key2 else before.b[i]))
  }

  /** Every entry but the own one is the one received from that player. */
  ghost predicate AllReceived(before: Tables, after: Tables, me: nat, served: seq<Message>, connected: seq<Message>) {
    var n := |before.p|;
    && |before.b| == |after.p| == |after.b| == n && me < n && me <= |served| && n - 1 - me <= |connected|
    && (forall k :: 0 <= k < me ==> after.p[k] == served[k].keyP && after.b[k] == served[k].key2)
    && after.p[me] == before.p[me] && after.b[me] == before.b[me]
    && (forall k :: me < k < n ==> after.p[k] == connected[n - 1 - k].keyP && after.b[k] == connected[n - 1 - k].key2)
  }

  /** After |sent| connections as a server: what was sent, the entries, and the seed. */
  ghost predicate ServedSo(add: Addition, me: nat, before: Tables, was: string, after: Tables, now: string,
                           messages: seq<Message>, sent: seq<Message>) {
    && me < |before.p| && me < |before.b| && |sent| <= me
    && Sends(add, Share(before.p[me], before.b[me]), was, messages, sent)
    && LowEntries(before, after, messages, |sent|) && now == SeedAfter(add, was, messages, |sent|)
  }

  lemma ServedMore(add: Addition, me: nat, before: Tables, was: string, mid: Tables, now: string,
                   messages: seq<Message>, sent: seq<Message>)
    requires ServedSo(add, me, before, was, mid, now, messages, sent) && |sent| < me && |sent| < |messages|
    ensures me < |mid.p| && me < |mid.b|
    ensures var m := messages[|sent|];
            ServedSo(add, me, before, was, Tables(mid.p[|sent| := m.keyP], mid.b[|sent| := m.key2]), add(now, m.seed),
                     messages, sent + [Message(mid.p[me], mid.b[me], now)])
  {
  }

  /** The same as a client. */
  ghost predicate ConnectedSo(add: Addition, me: nat, before: Tables, was: string, after: Tables, now: string,
                              messages: seq<Message>, sent: seq<Message>) {
    && me < |before.p| == |before.b| && |sent| <= |before.p| - 1 - me
    && Sends(add, Share(before.p[me], before.b[me]), was, messages, sent)
    && HighEntries(before, after, messages, |sent|) && now == SeedAfter(add, was, messages, |sent|)
  }

  lemma ConnectedMore(add: Addition, me: nat, before: Tables, was: string, mid: Tables, now: string,
                      messages: seq<Message>, sent: seq<Message>, other: nat)
    requires ConnectedSo(add, me, before, was, mid, now, messages, sent) && |sent| < |messages|
    requires other == |before.p| - 1 - |sent| && me < other
    ensures me < |mid.p| && me < |mid.b| && other < |mid.p| && other < |mid.b|
    ensures var m := messages[|sent|];
            ConnectedSo(add, me, before, was, Tables(mid.p[other := m.keyP], mid.b[other := m.key2]), add(now, m.seed),
                        messages, sent + [Message(mid.p[me], mid.b[me], now)])
  {
  }

  lemma BothPhases(x: Tables, mid: Tables, y: Tables, me: nat, served: seq<Message>, connected: seq<Message>)
    requires me < |x.p| && LowEntries(x, mid, served, me) && HighEntries(mid, y, connected, |x.p| - 1 - me)
    ensures AllReceived(x, y, me, served, connected)
  {
  }

  class Process {
    const me: nat
    const n: nat
    const jobId: string
    const add: Addition
    const keysP: array<string>
    const keys2: array<string>
    var seed: string
    var other: int               // the global other_player_number, 0 at start

    ghost predicate Valid()
      reads this
    {
      me < n && IsAddHex(add) && keysP != keys2 && keysP.Length == n && keys2.Length == n
    }

    ghost function Entries(): Tables
      reads this, keysP, keys2
    {
      Tables(keysP[..], keys2[..])
    }

    ghost function OwnShare(): Share
      requires Valid()
      reads this, keysP, keys2
    {
      Share(keysP[me], keys2[me])
    }

    /** After local attestation: own shares and a random seed. */
    constructor (me: nat, n: nat, jobId: string, own: Share, seed: string)
      requires me < n
      ensures Valid() && this.me == me && this.n == n && this.jobId == jobId && this.seed == seed && other == 0
      ensures OwnShare() == own && fresh(this) && fresh(keysP) && fresh(keys2)
    {
      this.me, this.n, this.jobId, this.seed, other := me, n, jobId, seed, 0;
      add := AddHex;
      var p := new string[n](i => "");
      var q := new string[n](i => "");
      p[me], q[me] := own.keyP, own.key2;
      keysP, keys2 := p, q;
    }

    /** One end of a session: send the own share and the current seed, add the other player's seed, enter its share. */
    method Meet(m: Message) returns (own: Message)
      requires Valid() && 0 <= other < n && other != me
      modifies this`seed, keysP, keys2
      ensures own == Message(old(keysP[me]), old(keys2[me]), old(seed)) && seed == add(old(seed), m.seed)
      ensures Entries() == Tables(old(keysP[..])[other := m.keyP], old(keys2[..])[other := m.key2])
    {
      own := Message(keysP[me], keys2[me], seed);
      seed := add(seed, m.seed);
      keysP[other], keys2[other] := m.keyP, m.key2;
    }

    /** The accept loop. The k-th connection must come from player k and the same job; it gets the own share and the
        seed as it is then. It completes when all lower-numbered players are served, in ascending order; it fails only
        if connections are missing, and refuses the first one that is not the expected one. */
    method Serve(clients: seq<Hello>) returns (r: Outcome, sent: seq<Message>)
      requires Valid() && other == 0
      modifies this, keysP, keys2
      ensures Valid() && |sent| <= me && |sent| <= |clients|
      ensures r == Completed <==> |sent| == me
      ensures r == Failed <==> |sent| == |clients| < me
      ensures r == Refused <==>
                (|sent| < me && |sent| < |clients|
                 && (clients[|sent|].jobId != jobId || clients[|sent|].number != |sent|))
      ensures Honest(clients, jobId, |sent|) && Sends(add, old(OwnShare()), old(seed), Messages(clients), sent)
      ensures LowEntries(old(Entries()), Entries(), Messages(clients), |sent|)
      ensures seed == SeedAfter(add, old(seed), Messages(clients), |sent|)
    {
      sent := [];
      ghost var messages, before, was := Messages(clients), Entries(), seed;
      while other < me
        invariant 0 <= other <= me && other == |sent| <= |clients|
        invariant Honest(clients, jobId, other)
        invariant ServedSo(add, me, before, was, Entries(), seed, messages, sent)
        decreases me - other
      {
        if other >= |clients| {
          return Failed, sent;
        }
        var client := clients[other];
        if VerifyPlayerDetails(client.jobId, client.number, jobId, other) == -1 {
          return Refused, sent;
        }
        assert messages[other] == client.message;
        ServedMore(add, me, before, was, Entries(), seed, messages, sent);
        var share := Meet(client.message);
        sent := sent + [share];
        other := other + 1;
      }
      return Completed, sent;
    }

    /** The connect loop: all higher-numbered players, in descending order. It fails only if some do not answer. */
    method Connect(servers: seq<Message>) returns (r: Outcome, sent: seq<Message>)
      requires Valid()
      modifies this, keysP, keys2
      ensures Valid() && |sent| <= n - 1 - me && |sent| <= |servers| && r != Refused
      ensures r == Completed <==> |sent| == n - 1 - me
      ensures r == Failed <==> |sent| == |servers| < n - 1 - me
      ensures Sends(add, old(OwnShare()), old(seed), servers, sent)
      ensures HighEntries(old(Entries()), Entries(), servers, |sent|)
      ensures seed == SeedAfter(add, old(seed), servers, |sent|)
    {
      sent := [];
      ghost var before, was := Entries(), seed;
      other := n - 1;
      while other >= me + 1
        invariant me <= other < n && |sent| == n - 1 - other <= |servers|
        invariant ConnectedSo(add, me, before, was, Entries(), seed, servers, sent)
        decreases other
      {
        if n - 1 - other >= |servers| {
          return Failed, sent;
        }
        ConnectedMore(add, me, before, was, Entries(), seed, servers, sent, other);
        var share := Meet(servers[n - 1 - other]);
        sent := sent + [share];
        other := other - 1;
      }
      return Completed, sent;
    }

    /** The phases of a player: server for the lower-numbered players, then client of the higher-numbered ones. Both
        complete exactly if all lower-numbered players connect in order and all higher-numbered ones answer; then the
        tables are complete, the seed is the own one plus all received ones, and every other player was sent the own
        share and the seed as it was then. */
    method Run(clients: seq<Hello>, servers: seq<Message>)
      returns (r: Outcome, toClients: seq<Message>, toServers: seq<Message>)
      requires Valid() && other == 0
      modifies this, keysP, keys2
      ensures Valid()
      ensures r == Completed <==> Completes(me, n, jobId, clients, servers)
      ensures r == Refused <==> TurnsAway(me, jobId, clients)
      ensures r == Completed ==>
                && AllReceived(old(Entries()), Entries(), me, Messages(clients), servers)
                && Ran(add, old(OwnShare()), old(seed), me, n, Messages(clients), servers, toClients, toServers)
                && seed == FinalSeed(add, old(seed), me, n, Messages(clients), servers)
    {
      ghost var start := Entries();
      toClients, toServers := [], [];
      if me > 0 {
        r, toClients := Serve(clients);
        if r != Completed { return; }
      }
      ghost var mid := Entries();
      if me < n - 1 {
        r, toServers := Connect(servers);
        if r != Completed { return; }
      }
      BothPhases(start, mid, Entries(), me, Messages(clients), servers);
      r := Completed;
    }
  }

  // N processes, connected to each other.

  /** What player p is sent and sends in the two roles. */
  datatype Traffic = Traffic(served: seq<Message>, connected: seq<Message>,
                             toClients: seq<Message>, toServers: seq<Message>)

  /** Every player has run to completion; as a server it was connected to by players 0, 1, .., and as a client it was
      answered by players N - 1, N - 2, ... */
  ghost predicate Wired(add: Addition, n: nat, shares: seq<Share>, seeds: seq<string>, net: seq<Traffic>) {
    && |shares| == |seeds| == |net| == n
    && (forall p :: 0 <= p < n ==>
          Ran(add, shares[p], seeds[p], p, n, net[p].served, net[p].connected, net[p].toClients, net[p].toServers))
    && (forall p, q :: 0 <= p < q < n ==>
          && net[q].served[p] == net[p].toServers[n - 1 - q]
          && net[p].connected[n - 1 - q] == net[q].toClients[p])
  }

  // Such processes exist, whatever the shares and seeds are.

  /** The seed of player b as a server after a sessions, and of player a as a client after k sessions. */
  function Serving(add: Addition, n: nat, seeds: seq<string>, b: nat, a: nat): string
    requires a <= b < n == |seeds|
    decreases a, 0, 0
  {
    if a == 0 then seeds[b] else add(Serving(add, n, seeds, b, a - 1), Connecting(add, n, seeds, a - 1, n - 1 - b))
  }

  function Connecting(add: Addition, n: nat, seeds: seq<string>, a: nat, k: nat): string
    requires a < n == |seeds| && k <= n - 1 - a
    decreases a, 1, k
  {
    if k == 0 then Serving(add, n, seeds, a, a)
    else add(Connecting(add, n, seeds, a, k - 1), Serving(add, n, seeds, n - k, a))
  }

  function Sent(share: Share, seed: string): Message {
    Message(share.keyP, share.key2, seed)
  }

  function TrafficOf(add: Addition, n: nat, shares: seq<Share>, seeds: seq<string>, p: nat): Traffic
    requires p < n == |seeds| == |shares|
  {
    Traffic(
      seq(p, k requires 0 <= k < p => Sent(shares[k], Connecting(add, n, seeds, k, n - 1 - p))),
      seq(n - 1 - p, i requires 0 <= i < n - 1 - p => Sent(shares[n - 1 - i], Serving(add, n, seeds, n - 1 - i, p))),
      seq(p, k requires 0 <= k < p => Sent(shares[p], Serving(add, n, seeds, p, k))),
      seq(n - 1 - p, i requires 0 <= i < n - 1 - p => Sent(shares[p], Connecting(add, n, seeds, p, i))))
  }

  lemma {:induction false} ServedSeeds(add: Addition, n: nat, seeds: seq<string>, p: nat, served: seq<Message>, k: nat)
    requires k <= p < n == |seeds| && |served| == p
    requires forall i :: 0 <= i < p ==> served[i].seed == Connecting(add, n, seeds, i, n - 1 - p)
    ensures SeedAfter(add, seeds[p], served, k) == Serving(add, n, seeds, p, k)
  {
    if k > 0 {
      ServedSeeds(add, n, seeds, p, served, k - 1);
    }
  }

  lemma {:induction false} ConnectedSeeds(add: Addition, n: nat, seeds: seq<string>, p: nat,
                                          connected: seq<Message>, k: nat)
    requires p < n == |seeds| && k <= n - 1 - p == |connected|
    requires forall i :: 0 <= i < n - 1 - p ==> connected[i].seed == Serving(add, n, seeds, n - 1 - i, p)
    ensures SeedAfter(add, Serving(add, n, seeds, p, p), connected, k) == Connecting(add, n, seeds, p, k)
  {
    if k > 0 {
      ConnectedSeeds(add, n, seeds, p, connected, k - 1);
      assert connected[k - 1].seed == Serving(add, n, seeds, n - k, p);
    }
  }

  lemma TrafficSeeds(add: Addition, n: nat, shares: seq<Share>, seeds: seq<string>, p: nat)
    requires p < n == |seeds| == |shares|
    ensures var x := TrafficOf(add, n, shares, seeds, p);
            && |x.served| == |x.toClients| == p && |x.connected| == |x.toServers| == n - 1 - p
            && (forall i :: 0 <= i < p ==> x.served[i].seed == Connecting(add, n, seeds, i, n - 1 - p))
            && (forall i :: 0 <= i < n - 1 - p ==> x.connected[i].seed == Serving(add, n, seeds, n - 1 - i, p))
  {
    var x := TrafficOf(add, n, shares, seeds, p);
    forall i | 0 <= i < n - 1 - p ensures x.connected[i].seed == Serving(add, n, seeds, n - 1 - i, p) {
      assert x.connected[i] == Sent(shares[n - 1 - i], Serving(add, n, seeds, n - 1 - i, p));
    }
  }

  lemma TrafficMatches(add: Addition, n: nat, shares: seq<Share>, seeds: seq<string>, p: nat, q: nat)
    requires p < q < n == |seeds| == |shares|
    ensures var x, y := TrafficOf(add, n, shares, seeds, p), TrafficOf(add, n, shares, seeds, q);
            && |x.toServers| == |x.connected| == n - 1 - p && |y.served| == |y.toClients| == q
            && y.served[p] == x.toServers[n - 1 - q] && x.connected[n - 1 - q] == y.toClients[p]
  {
  }

  lemma TrafficIsRun(add: Addition, n: nat, shares: seq<Share>, seeds: seq<string>, p: nat)
    requires p < n == |seeds| == |shares|
    ensures var x := TrafficOf(add, n, shares, seeds, p);
            Ran(add, shares[p], seeds[p], p, n, x.served, x.connected, x.toClients, x.toServers)
  {
    var x := TrafficOf(add, n, shares, seeds, p);
    TrafficSeeds(add, n, shares, seeds, p);
    forall k | 0 <= k <= p ensures SeedAfter(add, seeds[p], x.served, k) == Serving(add, n, seeds, p, k) {
      ServedSeeds(add, n, seeds, p, x.served, k);
    }
    forall k | 0 <= k <= n - 1 - p
      ensures SeedAfter(add, Serving(add, n, seeds, p, p), x.connected, k) == Connecting(add, n, seeds, p, k)
    {
      ConnectedSeeds(add, n, seeds, p, x.connected, k);
    }
  }

  lemma ProcessesCanBeWired(add: Addition, n: nat, shares: seq<Share>, seeds: seq<string>) returns (net: seq<Traffic>)
    requires |shares| == |seeds| == n
    ensures Wired(add, n, shares, seeds, net)
  {
    net := seq(n, p requires 0 <= p < n => TrafficOf(add, n, shares, seeds, p));
    forall p | 0 <= p < n
      ensures Ran(add, shares[p], seeds[p], p, n, net[p].served, net[p].connected, net[p].toClients, net[p].toServers)
    {
      TrafficIsRun(add, n, shares, seeds, p);
    }
    forall p, q | 0 <= p < q < n
      ensures net[q].served[p] == net[p].toServers[n - 1 - q] && net[p].connected[n - 1 - q] == net[q].toClients[p]
    {
      TrafficMatches(add, n, shares, seeds, p, q);
    }
  }

  /** The connections of players 0, 1, .. with their messages. */
  function Greetings(jobId: string, served: seq<Message>): seq<Hello> {
    seq(|served|, k requires 0 <= k < |served| => Hello(jobId, k, served[k]))
  }

  /** A player that meets the others in the order of the exchange completes: its clients are players 0, 1, .. and are
      followed by one server for every higher-numbered player. */
  lemma ScheduledCompletes(n: nat, p: nat, jobId: string, clients: seq<Hello>, servers: seq<Message>)
    requires p < n && |clients| == p && |clients| + |servers| == |PeersOf(Schedule(n), p)|
    requires forall k :: 0 <= k < |clients| ==>
               clients[k].jobId == jobId && clients[k].number == PeersOf(Schedule(n), p)[k]
    ensures Completes(p, n, jobId, clients, servers)
  {
    SchedulePeers(n, p);
  }

  /** Processes that are connected to each other complete, every one with the messages that it was sent. */
  lemma WiredCompletes(add: Addition, n: nat, shares: seq<Share>, seeds: seq<string>, net: seq<Traffic>, p: nat,
                       jobId: string)
    requires Wired(add, n, shares, seeds, net) && p < n
    ensures Messages(Greetings(jobId, net[p].served)) == net[p].served
    ensures Completes(p, n, jobId, Greetings(jobId, net[p].served), net[p].connected)
  {
    var x := net[p];
    assert Ran(add, shares[p], seeds[p], p, n, x.served, x.connected, x.toClients, x.toServers);
  }

  // How they end.

  /** What server b receives from client a. */
  lemma FromClient(add: Addition, n: nat, shares: seq<Share>, seeds: seq<string>, net: seq<Traffic>, a: nat, b: nat)
    requires Wired(add, n, shares, seeds, net) && a < b < n
    ensures a < |net[b].served| && a <= |net[a].served| && n - 1 - b <= |net[a].connected|
    ensures net[b].served[a] == Message(shares[a].keyP, shares[a].key2,
              SeedAfter(add, SeedAfter(add, seeds[a], net[a].served, a), net[a].connected, n - 1 - b))
  {
    var x := net[a];
    assert Ran(add, shares[a], seeds[a], a, n, x.served, x.connected, x.toClients, x.toServers);
    assert net[b].served[a] == x.toServers[n - 1 - b];
  }

  /** What client a receives from server b. */
  lemma FromServer(add: Addition, n: nat, shares: seq<Share>, seeds: seq<string>, net: seq<Traffic>, a: nat, b: nat)
    requires Wired(add, n, shares, seeds, net) && a < b < n
    ensures n - 1 - b < |net[a].connected| && a <= |net[b].served|
    ensures net[a].connected[n - 1 - b]
            == Message(shares[b].keyP, shares[b].key2, SeedAfter(add, seeds[b], net[b].served, a))
  {
    var x := net[b];
    assert Ran(add, shares[b], seeds[b], b, n, x.served, x.connected, x.toClients, x.toServers);
    assert net[a].connected[n - 1 - b] == x.toClients[a];
  }

  ghost predicate AllSeeds(seeds: seq<string>) {
    forall p :: 0 <= p < |seeds| ==> IsSeed(seeds[p])
  }

  /** The seed of server b after the sessions with players below a. */
  lemma {:induction false} ServerSeed(add: Addition, n: nat, shares: seq<Share>, seeds: seq<string>, net: seq<Traffic>,
                                      b: nat, a: nat)
    requires IsAddHex(add) && Wired(add, n, shares, seeds, net) && a <= b < n && AllSeeds(seeds)
    ensures a <= |net[b].served|
    ensures Stands(SeedAfter(add, seeds[b], net[b].served, a), Val(n, Values(seeds), a, b))
    decreases a, 0, 0
  {
    var v := Values(seeds);
    if a == 0 {
      SeedValue(seeds[b]);
    } else {
      ServerSeed(add, n, shares, seeds, net, b, a - 1);
      ClientSeed(add, n, shares, seeds, net, a - 1, n - 1 - b);
      FromClient(add, n, shares, seeds, net, a - 1, b);
      NextServed(add, n, v, b, a, seeds[b], net[b].served);
    }
  }

  /** Server b's session with player a - 1. */
  lemma NextServed(add: Addition, n: nat, v: seq<nat>, b: nat, a: nat, seed: string, served: seq<Message>)
    requires IsAddHex(add) && 1 <= a <= |served| && a <= b < n == |v|
    requires Stands(SeedAfter(add, seed, served, a - 1), Val(n, v, a - 1, b))
    requires Stands(served[a - 1].seed, Val(n, v, a - 1, a - 1) + Tail(n, v, a - 1, b + 1))
    ensures Stands(SeedAfter(add, seed, served, a), Val(n, v, a, b))
  {
    AddsSeeds(add, SeedAfter(add, seed, served, a - 1), served[a - 1].seed,
              Val(n, v, a - 1, b), Val(n, v, a - 1, a - 1) + Tail(n, v, a - 1, b + 1));
  }

  /** The seed of client a after k sessions, with players n - 1 down to n - k. */
  lemma {:induction false} ClientSeed(add: Addition, n: nat, shares: seq<Share>, seeds: seq<string>, net: seq<Traffic>,
                                      a: nat, k: nat)
    requires IsAddHex(add) && Wired(add, n, shares, seeds, net) && a < n && k <= n - 1 - a && AllSeeds(seeds)
    ensures a <= |net[a].served| && k <= |net[a].connected|
    ensures Stands(SeedAfter(add, SeedAfter(add, seeds[a], net[a].served, a), net[a].connected, k),
                   Val(n, Values(seeds), a, a) + Tail(n, Values(seeds), a, n - k))
    decreases a, 1, k
  {
    var v := Values(seeds);
    ServerSeed(add, n, shares, seeds, net, a, a);
    if k == 0 {
      assert Tail(n, v, a, n) == 0;
    } else {
      ClientSeed(add, n, shares, seeds, net, a, k - 1);
      ServerSeed(add, n, shares, seeds, net, n - k, a);
      FromServer(add, n, shares, seeds, net, a, n - k);
      NextSession(add, n, v, a, k, SeedAfter(add, seeds[a], net[a].served, a), net[a].connected);
    }
  }

  /** Client a's k-th session, with player n - k. */
  lemma NextSession(add: Addition, n: nat, v: seq<nat>, a: nat, k: nat, seed: string, connected: seq<Message>)
    requires IsAddHex(add) && |v| == n && 1 <= k <= |connected| && a < n - k
    requires Stands(SeedAfter(add, seed, connected, k - 1), Val(n, v, a, a) + Tail(n, v, a, n - k + 1))
    requires Stands(connected[k - 1].seed, Val(n, v, a, n - k))
    ensures Stands(SeedAfter(add, seed, connected, k), Val(n, v, a, a) + Tail(n, v, a, n - k))
  {
    AddsSeeds(add, SeedAfter(add, seed, connected, k - 1), connected[k - 1].seed,
              Val(n, v, a, a) + Tail(n, v, a, n - k + 1), Val(n, v, a, n - k));
  }

  /** The share of every other player is the one received from it. */
  ghost predicate SharesReceived(n: nat, p: nat, x: Player, received: Traffic) {
    && p < n && p <= |received.served| && n - 1 - p <= |received.connected| && |x.keysP| == |x.keys2| == n
    && (forall k :: 0 <= k < p ==> received.served[k].keyP == x.keysP[k] && received.served[k].key2 == x.keys2[k])
    && (forall k :: p < k < n ==>
          && received.connected[n - 1 - k].keyP == x.keysP[k] && received.connected[n - 1 - k].key2 == x.keys2[k])
  }

  lemma AllSharesReceived(add: Addition, n: nat, shares: seq<Share>, seeds: seq<string>, net: seq<Traffic>,
                          p: nat, x: Player)
    requires Wired(add, n, shares, seeds, net) && p < n && |x.keysP| == |x.keys2| == n
    requires forall i :: 0 <= i < n ==> Holds(x, i, shares[i])
    ensures SharesReceived(n, p, x, net[p])
  {
    var y := net[p];
    assert Ran(add, shares[p], seeds[p], p, n, y.served, y.connected, y.toClients, y.toServers);
    forall k | 0 <= k < p ensures y.served[k].keyP == x.keysP[k] && y.served[k].key2 == x.keys2[k] {
      FromClient(add, n, shares, seeds, net, k, p);
      assert Holds(x, k, shares[k]);
    }
    forall k | p < k < n
      ensures y.connected[n - 1 - k].keyP == x.keysP[k] && y.connected[n - 1 - k].key2 == x.keys2[k]
    {
      FromServer(add, n, shares, seeds, net, p, k);
      assert Holds(x, k, shares[k]);
    }
  }

  lemma FinalSeedStands(add: Addition, n: nat, shares: seq<Share>, seeds: seq<string>, net: seq<Traffic>, p: nat)
    requires IsAddHex(add) && Wired(add, n, shares, seeds, net) && p < n && AllSeeds(seeds)
    ensures p <= |net[p].served| && n - 1 - p <= |net[p].connected|
    ensures Stands(FinalSeed(add, seeds[p], p, n, net[p].served, net[p].connected), Tail(n, Values(seeds), p, p))
  {
    ClientSeed(add, n, shares, seeds, net, p, n - 1 - p);
  }

  /** N processes that are connected to each other end as the exchange does: every player with the same seed as there,
      and having received the shares that its tables hold there. */
  lemma ProcessesEndAsExchange(add: Addition, n: nat, shares: seq<Share>, seeds: seq<string>, s: State,
                               net: seq<Traffic>, p: nat)
    requires n > 0 && IsInit(n, shares, seeds, s) && Exchange.Tables(s) && p < n
    requires IsAddHex(add) && Wired(add, n, shares, seeds, net)
    ensures p <= |net[p].served| && n - 1 - p <= |net[p].connected| && IsRun(s, Schedule(n))
    ensures var x := After(s, Schedule(n)).players[p];
            && FinalSeed(add, seeds[p], p, n, net[p].served, net[p].connected) == x.seed
            && SharesReceived(n, p, x, net[p])
  {
    Result(n, shares, seeds, s);
    assert AllSeeds(seeds);
    FinalSeedStands(add, n, shares, seeds, net, p);
    var t := After(s, Schedule(n));
    var tail := Tail(n, Values(seeds), p, p);
    SameSeed(FinalSeed(add, seeds[p], p, n, net[p].served, net[p].connected), t.players[p].seed, tail, tail);
    AllSharesReceived(add, n, shares, seeds, net, p, t.players[p]);
  }

  // The files that the MPC program reads.

  datatype Field = Prime | Binary

  function Label(f: Field): string {
    if f == Prime then "p" else "2"
  }

  function BitWidth(f: Field): string {
    if f == Prime then "128" else "40"
  }

  function Folder(pc: nat, f: Field): string {
    "Player-Data/" + (Text.Print(pc) + ("-" + (Label(f) + ("-" + BitWidth(f)))))
  }

  function KeyFile(pc: nat, f: Field, p: nat): string {
    Folder(pc, f) + ("/Player-MAC-Keys-" + Label(f) + "-P") + Text.Print(p)
  }

  function KeyText(pc: nat, key: string): string {
    Text.Print(pc) + " " + key
  }

  /** The files of player 1 of 2, and what they hold for a share. */
  lemma KeyFileNames(key: string)
    ensures KeyFile(2, Prime, 1) == "Player-Data/2-p-128/Player-MAC-Keys-p-P1"
    ensures KeyFile(2, Binary, 1) == "Player-Data/2-2-40/Player-MAC-Keys-2-P1"
    ensures KeyText(2, key) == "2 " + key
  {
    assert Text.Print(2) == "2" && Text.Print(1) == "1";
    assert "2" + " " == "2 ";
    FolderNames();
    assert "/Player-MAC-Keys-" + "p" + "-P" == "/Player-MAC-Keys-p-P";
    assert "Player-Data/2-p-128" + "/Player-MAC-Keys-p-P" + "1" == "Player-Data/2-p-128/Player-MAC-Keys-p-P1";
    assert "/Player-MAC-Keys-" + "2" + "-P" == "/Player-MAC-Keys-2-P";
    assert "Player-Data/2-2-40" + "/Player-MAC-Keys-2-P" + "1" == "Player-Data/2-2-40/Player-MAC-Keys-2-P1";
  }

  lemma FolderNames()
    ensures Folder(2, Prime) == "Player-Data/2-p-128" && Folder(2, Binary) == "Player-Data/2-2-40"
  {
    assert Text.Print(2) == "2";
    assert "2" + ("-" + ("p" + ("-" + "128"))) == "2-p-128";
    assert "2" + ("-" + ("2" + ("-" + "40"))) == "2-2-40";
  }

  lemma KeyFilesDiffer(pc: nat, f: Field, p: nat, g: Field, q: nat)
    requires f != g || p != q
    ensures KeyFile(pc, f, p) != KeyFile(pc, g, q)
  {
    if f == g {
      var prefix := Folder(pc, f) + ("/Player-MAC-Keys-" + Label(f) + "-P");
      Text.PrintIsCanonical(p);
      Text.PrintIsCanonical(q);
      assert KeyFile(pc, f, p)[|prefix|..] == Text.Print(p) && KeyFile(pc, g, q)[|prefix|..] == Text.Print(q);
    } else {
      FolderLabel(pc, f, p);
      FolderLabel(pc, g, q);
    }
  }

  lemma FolderLabel(pc: nat, f: Field, p: nat)
    ensures |KeyFile(pc, f, p)| > 13 + |Text.Print(pc)|
    ensures KeyFile(pc, f, p)[13 + |Text.Print(pc)|] == if f == Prime then 'p' else '2'
  {
    var rest := "-" + (Label(f) + ("-" + BitWidth(f)));
    assert rest[1] == if f == Prime then 'p' else '2';
    assert (Text.Print(pc) + rest)[|Text.Print(pc)| + 1] == rest[1];
    assert Folder(pc, f)[12 + |Text.Print(pc)| + 1] == (Text.Print(pc) + rest)[|Text.Print(pc)| + 1];
  }

  /** The files with the shares of the first upto players in field f. */
  ghost predicate Written(files: map<string, string>, pc: nat, f: Field, keys: seq<string>, upto: nat) {
    forall p :: 0 <= p < upto && p < |keys| ==>
      KeyFile(pc, f, p) in files && files[KeyFile(pc, f, p)] == KeyText(pc, keys[p])
  }

  ghost function KeyFiles(pc: nat, f: Field, upto: nat): set<string> {
    set p: nat | p < upto :: KeyFile(pc, f, p)
  }

  /** The files of others are left alone. */
  ghost predicate Unchanged(files: map<string, string>, written: map<string, string>, names: set<string>) {
    written - names == files - names
  }

  method WriteField(pc: nat, f: Field, keys: seq<string>, files: map<string, string>)
    returns (written: map<string, string>)
    requires |keys| == pc
    ensures Written(written, pc, f, keys, pc) && Unchanged(files, written, KeyFiles(pc, f, pc))
  {
    written := files;
    for p := 0 to pc
      invariant Written(written, pc, f, keys, p) && Unchanged(files, written, KeyFiles(pc, f, p))
    {
      forall q: nat | q != p ensures KeyFile(pc, f, p) != KeyFile(pc, f, q) {
        KeyFilesDiffer(pc, f, p, f, q);
      }
      ghost var names, name := KeyFiles(pc, f, p), KeyFile(pc, f, p);
      assert KeyFiles(pc, f, p + 1) == names + {name};
      assert files - (names + {name}) == (files - names) - {name};
      written := written[KeyFile(pc, f, p) := KeyText(pc, keys[p])];
      assert written - (names + {name}) == (written - names) - {name};
    }
  }

  /** One file for every player and field, holding the number of players and that player's share. */
  method CreateMacKeyShares(pc: nat, keysP: seq<string>, keys2: seq<string>, files: map<string, string>)
    returns (written: map<string, string>)
    requires |keysP| == |keys2| == pc
    ensures Written(written, pc, Prime, keysP, pc) && Written(written, pc, Binary, keys2, pc)
    ensures Unchanged(files, written, KeyFiles(pc, Prime, pc) + KeyFiles(pc, Binary, pc))
  {
    written := files;
    var fields := [Prime, Binary];
    for i := 0 to |fields|
      invariant i == 0 ==> written == files
      invariant i > 0 ==> Written(written, pc, Prime, keysP, pc)
      invariant i == 1 ==> Unchanged(files, written, KeyFiles(pc, Prime, pc))
      invariant i == 2 ==> Written(written, pc, Binary, keys2, pc)
      invariant i == 2 ==> Unchanged(files, written, KeyFiles(pc, Prime, pc) + KeyFiles(pc, Binary, pc))
    {
      var f := fields[i];
      ghost var before := written;
      written := WriteField(pc, f, if f == Prime then keysP else keys2, written);
      if i == 1 {
        OtherFieldStays(before, written, pc, keysP);
        UnchangedTwice(files, before, written, KeyFiles(pc, Prime, pc), KeyFiles(pc, Binary, pc));
      }
    }
  }

  lemma OtherFieldStays(files: map<string, string>, written: map<string, string>, pc: nat, keysP: seq<string>)
    requires Written(files, pc, Prime, keysP, pc) && Unchanged(files, written, KeyFiles(pc, Binary, pc))
    ensures Written(written, pc, Prime, keysP, pc)
  {
    forall p: nat | p < pc && p < |keysP|
      ensures KeyFile(pc, Prime, p) in written && written[KeyFile(pc, Prime, p)] == KeyText(pc, keysP[p])
    {
      forall q: nat ensures KeyFile(pc, Prime, p) != KeyFile(pc, Binary, q) {
        KeyFilesDiffer(pc, Prime, p, Binary, q);
      }
      assert KeyFile(pc, Prime, p) in files - KeyFiles(pc, Binary, pc);
      assert KeyFile(pc, Prime, p) in written - KeyFiles(pc, Binary, pc);
    }
  }

  lemma UnchangedTwice(files: map<string, string>, mid: map<string, string>, written: map<string, string>,
                       a: set<string>, b: set<string>)
    requires Unchanged(files, mid, a) && Unchanged(mid, written, b)
    ensures Unchanged(files, written, a + b)
  {
    assert files - (a + b) == (files - a) - b && mid - (a + b) == (mid - a) - b;
    assert written - (a + b) == (written - b) - a && mid - (a + b) == (mid - b) - a;
  }

  /** All players of a completed exchange write the same texts. */
  lemma SameFiles(n: nat, shares: seq<Share>, s: State, p: nat, q: nat,
                  files: map<string, string>, other: map<string, string>, f: Field, k: nat)
    requires |shares| == |s.players| == n && p < n && q < n && k < n && Exchange.Tables(s)
    requires forall r, i :: 0 <= r < n && 0 <= i < n ==> Holds(s.players[r], i, shares[i])
    requires Written(files, n, Prime, s.players[p].keysP, n) && Written(files, n, Binary, s.players[p].keys2, n)
    requires Written(other, n, Prime, s.players[q].keysP, n) && Written(other, n, Binary, s.players[q].keys2, n)
    ensures KeyFile(n, f, k) in files && KeyFile(n, f, k) in other && files[KeyFile(n, f, k)] == other[KeyFile(n, f, k)]
    ensures files[KeyFile(n, f, k)] == KeyText(n, if f == Prime then shares[k].keyP else shares[k].key2)
  {
    assert Holds(s.players[p], k, shares[k]) && Holds(s.players[q], k, shares[k]);
  }
}

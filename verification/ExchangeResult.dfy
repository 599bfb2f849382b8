/** What the exchange leaves behind: complete key tables, and seeds in closed form. */
module ExchangeResult {
  import opened HexSeed
  import opened Exchange

  // Key tables.

  /** The players have met by the time of the point (a, b). */
  predicate HaveMet(a: nat, b: nat, i: nat, j: nat) {
    i < a || (i == a && j > b)
  }

  ghost predicate Holds(x: Player, i: nat, share: Share) {
    i < |x.keysP| && i < |x.keys2| && x.keysP[i] == share.keyP && x.keys2[i] == share.key2
  }

  ghost predicate KeysAt(n: nat, a: nat, b: nat, shares: seq<Share>, s: State) {
    && |s.players| == |shares| == n
    && (forall p :: 0 <= p < n ==> Holds(s.players[p], p, shares[p]))
    && (forall i, j :: 0 <= i < j < n && HaveMet(a, b, i, j) ==>
          Holds(s.players[i], j, shares[j]) && Holds(s.players[j], i, shares[i]))
  }

  lemma SessionKeys(n: nat, a: nat, b: nat, shares: seq<Share>, s: State)
    requires At(n, a, b, s) && a + 1 < n && KeysAt(n, a, b, shares, s)
    ensures Enabled(s, a, b)
    ensures KeysAt(n, Next(n, a, b).0, Next(n, a, b).1, shares, Session(s, a, b))
  {
    OnlyScheduled(n, a, b, s, a, b);
    var t := Session(s, a, b);
    assert forall p, i :: 0 <= p < n && 0 <= i < n && !(p == a && i == b) && !(p == b && i == a) ==>
             t.players[p].keysP[i] == s.players[p].keysP[i] && t.players[p].keys2[i] == s.players[p].keys2[i];
    var next := Next(n, a, b);
    forall i, j | 0 <= i < j < n && HaveMet(next.0, next.1, i, j)
      ensures Holds(t.players[i], j, shares[j]) && Holds(t.players[j], i, shares[i])
    {
      assert HaveMet(a, b, i, j) || (i == a && j == b);
    }
  }

  // Seeds. Val is the seed of player m when client a starts, Tail a sum of such seeds; both without wrap-around.

  function Val(n: nat, seeds: seq<nat>, a: nat, m: nat): nat
    requires a <= m < n == |seeds|
    decreases a, n - m, 0
  {
    if a == 0 then seeds[m] else Val(n, seeds, a - 1, a - 1) + Tail(n, seeds, a - 1, m)
  }

  function Tail(n: nat, seeds: seq<nat>, a: nat, m: nat): nat
    requires a <= m <= n == |seeds|
    decreases a, n - m, 1
  {
    if m == n then 0 else Val(n, seeds, a, m) + Tail(n, seeds, a, m + 1)
  }

  function SeedAt(n: nat, seeds: seq<nat>, a: nat, b: nat, p: nat): nat
    requires IsPoint(n, a, b) && p < n == |seeds|
  {
    if p < a then Tail(n, seeds, p, p)
    else if p == a then Val(n, seeds, a, a) + Tail(n, seeds, a, b + 1)
    else if p > b then Val(n, seeds, a, a) + Tail(n, seeds, a, p)
    else Val(n, seeds, a, p)
  }

  function Values(seeds: seq<string>): (v: seq<nat>)
    ensures |v| == |seeds|
  {
    seq(|seeds|, i requires 0 <= i < |seeds| => Value(seeds[i]))
  }

  /** The seed of a player stands for a number. */
  ghost predicate Stands(seed: string, v: nat) {
    IsSeed(seed) && Value(seed) == Wrap(v)
  }

  ghost predicate SeedsAt(n: nat, a: nat, b: nat, seeds: seq<nat>, s: State)
    requires IsPoint(n, a, b) && |seeds| == n == |s.players|
  {
    forall p :: 0 <= p < n ==> Stands(s.players[p].seed, SeedAt(n, seeds, a, b, p))
  }

  lemma StandsForSum(x: string, y: string, v: nat, w: nat)
    requires Stands(x, v) && Stands(y, w)
    ensures Stands(AddHex(x, y), v + w) && Stands(AddHex(y, x), v + w)
  {
    AddHexAdds(x, y);
    AddHexAdds(y, x);
    AddModulo(v, w);
    AddModulo(w, v % TWO_64);
  }

  lemma SeedAtNext(n: nat, seeds: seq<nat>, a: nat, b: nat, p: nat)
    requires IsPoint(n, a, b) && a + 1 < n == |seeds| && p < n
    ensures var next := Next(n, a, b);
            SeedAt(n, seeds, next.0, next.1, p) ==
            if p == a || p == b then SeedAt(n, seeds, a, b, a) + SeedAt(n, seeds, a, b, b) else SeedAt(n, seeds, a, b, p)
  {
    assert Tail(n, seeds, a, b) == Val(n, seeds, a, b) + Tail(n, seeds, a, b + 1);
    assert Tail(n, seeds, a, a) == Val(n, seeds, a, a) + Tail(n, seeds, a, a + 1);
    if b == a + 1 {
      assert Tail(n, seeds, a + 1, n) == 0;
      assert p > a ==> Val(n, seeds, a + 1, p) == Val(n, seeds, a, a) + Tail(n, seeds, a, p);
    }
  }

  lemma SessionSeeds(n: nat, a: nat, b: nat, seeds: seq<nat>, s: State)
    requires At(n, a, b, s) && a + 1 < n && |seeds| == n && SeedsAt(n, a, b, seeds, s)
    ensures Enabled(s, a, b) && IsPoint(n, Next(n, a, b).0, Next(n, a, b).1)
    ensures SeedsAt(n, Next(n, a, b).0, Next(n, a, b).1, seeds, Session(s, a, b))
  {
    OnlyScheduled(n, a, b, s, a, b);
    var t := Session(s, a, b);
    var next := Next(n, a, b);
    StandsForSum(s.players[a].seed, s.players[b].seed, SeedAt(n, seeds, a, b, a), SeedAt(n, seeds, a, b, b));
    forall p | 0 <= p < n ensures Stands(t.players[p].seed, SeedAt(n, seeds, next.0, next.1, p)) {
      SeedAtNext(n, seeds, a, b, p);
      assert Stands(s.players[p].seed, SeedAt(n, seeds, a, b, p));
    }
  }

  // Whole runs.

  lemma {:induction false} RunKeeps(n: nat, a: nat, b: nat, shares: seq<Share>, seeds: seq<nat>, s: State)
    requires At(n, a, b, s) && KeysAt(n, a, b, shares, s) && |seeds| == n && SeedsAt(n, a, b, seeds, s)
    ensures IsRun(s, From(n, a, b))
    ensures var t := After(s, From(n, a, b));
            At(n, n - 1, n - 1, t) && KeysAt(n, n - 1, n - 1, shares, t) && SeedsAt(n, n - 1, n - 1, seeds, t)
    decreases n - a, b
  {
    if a + 1 < n {
      var next := Next(n, a, b);
      SessionAdvances(n, a, b, s);
      SessionKeys(n, a, b, shares, s);
      SessionSeeds(n, a, b, seeds, s);
      RunKeeps(n, next.0, next.1, shares, seeds, Session(s, a, b));
      var sessions := From(n, a, b);
      assert sessions[0] == (a, b) && sessions[1..] == From(n, next.0, next.1);
    } else {
      assert From(n, a, b) == [];
    }
  }

  /** The seeds of finished players: player p's seed is the sum, modulo 2^64, of the seeds of p and all higher players
      as they were when p started to connect. */
  ghost predicate FinalSeeds(n: nat, v: seq<nat>, t: State) {
    |v| == n == |t.players| && forall p :: 0 <= p < n ==> Stands(t.players[p].seed, Tail(n, v, p, p))
  }

  /** The whole exchange is possible; then every player holds the share of every player at its index in both tables,
      and the seeds are as FinalSeeds says. */
  lemma Result(n: nat, shares: seq<Share>, seeds: seq<string>, s: State)
    requires n > 0 && IsInit(n, shares, seeds, s) && Tables(s)
    ensures IsRun(s, Schedule(n))
    ensures var t := After(s, Schedule(n));
            && FinalSeeds(n, Values(seeds), t)
            && (forall p, i :: 0 <= p < n && 0 <= i < n ==> Holds(t.players[p], i, shares[i]))
  {
    var v := Values(seeds);
    InitPoint(n, shares, seeds, s);
    InitSeeds(n, shares, seeds, s);
    RunKeeps(n, 0, n - 1, shares, v, s);
    var t := After(s, Schedule(n));
    forall p | 0 <= p < n ensures Stands(t.players[p].seed, Tail(n, v, p, p)) {
      assert Stands(t.players[p].seed, SeedAt(n, v, n - 1, n - 1, p));
      assert Tail(n, v, n - 1, n) == 0;
    }
    forall p, i | 0 <= p < n && 0 <= i < n ensures Holds(t.players[p], i, shares[i]) {
      if p < i {
        assert HaveMet(n - 1, n - 1, p, i);
      } else if i < p {
        assert HaveMet(n - 1, n - 1, i, p);
      }
    }
  }

  lemma InitSeeds(n: nat, shares: seq<Share>, seeds: seq<string>, s: State)
    requires n > 0 && IsInit(n, shares, seeds, s)
    ensures IsPoint(n, 0, n - 1) && SeedsAt(n, 0, n - 1, Values(seeds), s)
  {
    forall p | 0 <= p < n ensures Stands(s.players[p].seed, SeedAt(n, Values(seeds), 0, n - 1, p)) {
      SeedValue(seeds[p]);
      assert Tail(n, Values(seeds), 0, n) == 0;
    }
  }

  /** Both ends of a session leave it with the same seed, the sum of their two previous ones. */
  lemma SessionAgrees(n: nat, a: nat, b: nat, s: State)
    requires At(n, a, b, s) && a + 1 < n && IsSeed(s.players[a].seed) && IsSeed(s.players[b].seed)
    ensures Enabled(s, a, b)
    ensures var t := Session(s, a, b);
            && t.players[a].seed == t.players[b].seed
            && Value(t.players[a].seed) == Wrap(Value(s.players[a].seed) + Value(s.players[b].seed))
  {
    OnlyScheduled(n, a, b, s, a, b);
    AddHexCommutes(s.players[a].seed, s.players[b].seed);
    AddHexAdds(s.players[a].seed, s.players[b].seed);
  }

  function Sum(v: seq<nat>): nat {
    if v == [] then 0 else v[0] + Sum(v[1..])
  }

  lemma {:induction false} TailIsSum(n: nat, v: seq<nat>, m: nat)
    requires m <= n == |v|
    ensures Tail(n, v, 0, m) == Sum(v[m..])
    decreases n - m
  {
    if m < n {
      TailIsSum(n, v, m + 1);
      assert v[m..][1..] == v[m + 1..];
    }
  }

  /** Player 0 ends with the sum of all initial seeds. */
  lemma PlayerZero(n: nat, v: seq<nat>, t: State)
    requires 0 < n && FinalSeeds(n, v, t)
    ensures Stands(t.players[0].seed, Sum(v))
  {
    TailIsSum(n, v, 0);
    assert v[0..] == v;
  }

  // Agreement. A condition on the initial seeds, with binomial coefficients.

  function Choose(n: nat, k: nat): nat {
    if k == 0 then 1 else if n == 0 then 0 else Choose(n - 1, k - 1) + Choose(n - 1, k)
  }

  /** The sum, over all k from i on, of seed k times (k - d choose a). */
  function Weighted(v: seq<nat>, a: nat, d: nat, i: nat): nat
    requires d <= i <= |v|
    decreases |v| - i
  {
    if i == |v| then 0 else Choose(i - d, a) * v[i] + Weighted(v, a, d, i + 1)
  }

  /** What player a may not add to the common sum, if all players are to agree. */
  function Excess(v: seq<nat>, a: nat): int
    requires 1 <= a <= |v| - 2
  {
    (Choose(|v| - 2, a - 1) - 1) * Sum(v) + Choose(|v| - 2, a) * v[0] + Weighted(v, a, 1, a + 1)
  }

  /** Equal modulo 2^64. */
  predicate Same(x: int, y: int) {
    (x - y) % TWO_64 == 0
  }

  lemma SameSum(x: int, y: int, x': int, y': int)
    requires Same(x, y) && Same(x', y')
    ensures Same(x + x', y + y') && Same(y, x)
  {
  }

  lemma SameWrap(x: nat, y: nat)
    ensures Same(x, y) <==> Wrap(x) == Wrap(y)
  {
  }

  // Tail in closed form, as long as everybody before holds the common sum.

  function Closed(v: seq<nat>, a: nat, m: nat): int
    requires 1 <= a <= m <= |v|
  {
    (Choose(|v| - m + a - 1, a - 1) - 1) * Sum(v) + Choose(|v| - m + a - 1, a) * v[0] + Weighted(v, a, m - a, m)
  }

  lemma {:induction false} ChooseDiagonal(n: nat, k: nat)
    ensures n < k ==> Choose(n, k) == 0
    ensures n == k ==> Choose(n, k) == 1
  {
    if n > 0 && k > 0 {
      ChooseDiagonal(n - 1, k - 1);
      ChooseDiagonal(n - 1, k);
    }
  }

  lemma Distribute(x: int, y: int, z: int)
    ensures (x + y) * z == x * z + y * z && (x - y) * z == x * z - y * z
  {
  }

  /** The rule of Pascal, for weighted sums. */
  lemma {:induction false} WeightedPascal(v: seq<nat>, a: nat, d: nat, i: nat)
    requires 1 <= a && d + 1 <= i <= |v|
    ensures Weighted(v, a, d, i) == Weighted(v, a - 1, d + 1, i) + Weighted(v, a, d + 1, i)
    decreases |v| - i
  {
    if i < |v| {
      WeightedPascal(v, a, d, i + 1);
      Distribute(Choose(i - d - 1, a - 1), Choose(i - d - 1, a), v[i]);
    }
  }

  lemma {:induction false} UnweightedTail(n: nat, v: seq<nat>, d: nat, m: nat)
    requires d <= m <= n == |v|
    ensures Tail(n, v, 0, m) == Weighted(v, 0, d, m)
    decreases n - m
  {
    if m < n {
      UnweightedTail(n, v, d, m + 1);
    }
  }

  lemma ClosedFirst(v: seq<nat>, m: nat)
    requires 1 <= m < |v|
    ensures Closed(v, 1, m) == v[0] + Tail(|v|, v, 0, m) + Closed(v, 1, m + 1)
  {
    var k := |v| - m;
    Pascal(k, 1, v[0]);
    ChooseDiagonal(k - 1, 0);
    WeightedPascal(v, 1, m - 1, m);
    ChooseDiagonal(0, 1);
    UnweightedTail(|v|, v, m, m);
  }

  lemma Pascal(k: nat, a: nat, x: int)
    requires k > 0 && a > 0
    ensures Choose(k, a) * x == Choose(k - 1, a - 1) * x + Choose(k - 1, a) * x
  {
    Distribute(Choose(k - 1, a - 1), Choose(k - 1, a), x);
  }

  lemma LessOne(x: int, y: int, z: int)
    ensures (x + y - 1) * z == z + (x - 1) * z + (y - 1) * z
  {
  }

  lemma ClosedNext(v: seq<nat>, a: nat, m: nat)
    requires 2 <= a <= m < |v|
    ensures Closed(v, a, m) == Sum(v) + Closed(v, a - 1, m) + Closed(v, a, m + 1)
  {
    var k := |v| - m + a - 1;
    assert Choose(k, a - 1) == Choose(k - 1, a - 2) + Choose(k - 1, a - 1);
    LessOne(Choose(k - 1, a - 2), Choose(k - 1, a - 1), Sum(v));
    Pascal(k, a, v[0]);
    WeightedNext(v, a, m);
    AddUp(v, a, m, k);
  }

  lemma WeightedNext(v: seq<nat>, a: nat, m: nat)
    requires 1 <= a <= m < |v|
    ensures Weighted(v, a, m - a, m) == Weighted(v, a - 1, m - a + 1, m) + Weighted(v, a, m - a + 1, m + 1)
  {
    WeightedPascal(v, a, m - a, m);
    ChooseDiagonal(a - 1, a);
    assert Weighted(v, a, m - a + 1, m) == 0 * v[m] + Weighted(v, a, m - a + 1, m + 1);
  }

  lemma AddUp(v: seq<nat>, a: nat, m: nat, k: nat)
    requires 2 <= a <= m < |v| && k == |v| - m + a - 1
    requires (Choose(k, a - 1) - 1) * Sum(v)
             == Sum(v) + (Choose(k - 1, a - 2) - 1) * Sum(v) + (Choose(k - 1, a - 1) - 1) * Sum(v)
    requires Choose(k, a) * v[0] == Choose(k - 1, a - 1) * v[0] + Choose(k - 1, a) * v[0]
    requires Weighted(v, a, m - a, m) == Weighted(v, a - 1, m - a + 1, m) + Weighted(v, a, m - a + 1, m + 1)
    ensures Closed(v, a, m) == Sum(v) + Closed(v, a - 1, m) + Closed(v, a, m + 1)
  {
    assert Closed(v, a - 1, m)
           == (Choose(k - 1, a - 2) - 1) * Sum(v) + Choose(k - 1, a - 1) * v[0] + Weighted(v, a - 1, m - a + 1, m);
    assert Closed(v, a, m + 1)
           == (Choose(k - 1, a - 1) - 1) * Sum(v) + Choose(k - 1, a) * v[0] + Weighted(v, a, m - a + 1, m + 1);
  }

  lemma TailStep(n: nat, v: seq<nat>, a: nat, m: nat)
    requires 2 <= a <= m < n == |v| && Same(Tail(n, v, a - 2, a - 2), Sum(v))
    requires Same(Tail(n, v, a - 1, m), Closed(v, a - 1, m)) && Same(Tail(n, v, a, m + 1), Closed(v, a, m + 1))
    ensures Same(Tail(n, v, a, m), Closed(v, a, m))
  {
    SeedBefore(n, v, a, m);
    ClosedNext(v, a, m);
    SameSum(Tail(n, v, a - 2, a - 2), Sum(v), Tail(n, v, a - 1, m), Closed(v, a - 1, m));
    SameSum(Val(n, v, a, m), Sum(v) + Closed(v, a - 1, m), Tail(n, v, a, m + 1), Closed(v, a, m + 1));
  }

  /** When player a starts to connect, player m has added the seed that player a - 1 started with. */
  lemma SeedBefore(n: nat, v: seq<nat>, a: nat, m: nat)
    requires 2 <= a <= m < n == |v|
    ensures Val(n, v, a, m) == Tail(n, v, a - 2, a - 2) + Tail(n, v, a - 1, m)
    ensures Tail(n, v, a, m) == Val(n, v, a, m) + Tail(n, v, a, m + 1)
  {
    assert Val(n, v, a - 1, a - 1) == Val(n, v, a - 2, a - 2) + Tail(n, v, a - 2, a - 1);
    assert Tail(n, v, a - 2, a - 2) == Val(n, v, a - 2, a - 2) + Tail(n, v, a - 2, a - 1);
  }

  /** All players up to p hold the common sum. */
  ghost predicate Common(n: nat, v: seq<nat>, p: int)
    requires p < n == |v|
  {
    forall b :: 0 <= b <= p ==> Same(Tail(n, v, b, b), Sum(v))
  }

  lemma {:induction false} ClosedTail(n: nat, v: seq<nat>, a: nat, m: nat)
    requires 1 <= a <= m <= n == |v| && Common(n, v, a - 2)
    ensures Same(Tail(n, v, a, m), Closed(v, a, m))
    decreases a, n - m
  {
    if m == n {
      ChooseDiagonal(a - 1, a - 1);
      ChooseDiagonal(a - 1, a);
    } else {
      ClosedTail(n, v, a, m + 1);
      if a == 1 {
        ClosedFirst(v, m);
        assert Val(n, v, 1, m) == v[0] + Tail(n, v, 0, m);
      } else {
        ClosedTail(n, v, a - 1, m);
        assert Same(Tail(n, v, a - 2, a - 2), Sum(v));
        TailStep(n, v, a, m);
      }
    }
  }

  // One player more.

  lemma ExcessIsClosed(v: seq<nat>, a: nat)
    requires 1 <= a <= |v| - 2
    ensures Closed(v, a, a + 1) == Excess(v, a)
  {
  }

  lemma SameShift(x: int, y: int, u: int, w: int)
    requires Same(x, y) && Same(u, w)
    ensures Same(x + u, y) <==> Same(w, 0)
  {
  }

  lemma NextTail(n: nat, v: seq<nat>, p: nat)
    requires p + 1 < n == |v|
    ensures Tail(n, v, p + 1, p + 1) == Tail(n, v, p, p) + Tail(n, v, p + 1, p + 2)
  {
    assert Val(n, v, p + 1, p + 1) == Val(n, v, p, p) + Tail(n, v, p, p + 1);
  }

  /** If all up to player a - 1 hold the common sum, so does player a exactly if its excess is 0; the last player always
      does. */
  lemma OneMoreHolds(n: nat, v: seq<nat>, a: nat)
    requires 1 <= a < n == |v| && Common(n, v, a - 1)
    ensures Common(n, v, a) <==> (a <= n - 2 ==> Same(Excess(v, a), 0))
  {
    NextTail(n, v, a - 1);
    assert Same(Tail(n, v, a - 1, a - 1), Sum(v));
    var excess := 0;
    if a <= n - 2 {
      ClosedTail(n, v, a, a + 1);
      ExcessIsClosed(v, a);
      excess := Excess(v, a);
    } else {
      assert Tail(n, v, a, n) == 0;
    }
    SameShift(Tail(n, v, a - 1, a - 1), Sum(v), Tail(n, v, a, a + 1), excess);
  }

  lemma {:induction false} CommonIff(n: nat, v: seq<nat>, p: nat)
    requires p < n == |v|
    ensures Common(n, v, p) <==> forall a :: 1 <= a <= p && a <= n - 2 ==> Same(Excess(v, a), 0)
  {
    if p == 0 {
      TailIsSum(n, v, 0);
      assert v[0..] == v;
    } else {
      CommonIff(n, v, p - 1);
      if Common(n, v, p - 1) {
        OneMoreHolds(n, v, p);
      }
    }
  }

  lemma SameSeed(x: string, y: string, v: nat, w: nat)
    requires Stands(x, v) && Stands(y, w)
    ensures x == y <==> Wrap(v) == Wrap(w)
  {
    if Wrap(v) == Wrap(w) {
      SameValue(x, y);
    }
  }

  /** When all players end with the same seed: exactly if, with S the sum of all initial seeds, for each player a but
      the first and the last, (n-2 choose a-1) - 1 times S plus (n-2 choose a) times seed 0 plus the seeds of all
      higher players i, each (i-1 choose a) times, is 0 modulo 2^64. */
  lemma AllAgreeIff(n: nat, v: seq<nat>, t: State)
    requires 0 < n && FinalSeeds(n, v, t)
    ensures (forall p :: 0 <= p < n ==> t.players[p].seed == t.players[0].seed)
            <==> (forall a :: 1 <= a <= n - 2 ==> Excess(v, a) % TWO_64 == 0)
  {
    TailIsSum(n, v, 0);
    assert v[0..] == v;
    forall p | 0 <= p < n
      ensures t.players[p].seed == t.players[0].seed <==> Same(Tail(n, v, p, p), Sum(v))
    {
      SameSeed(t.players[p].seed, t.players[0].seed, Tail(n, v, p, p), Tail(n, v, 0, 0));
      SameWrap(Tail(n, v, p, p), Sum(v));
    }
    CommonIff(n, v, n - 1);
    assert Common(n, v, n - 1) <==> forall p :: 0 <= p < n ==> t.players[p].seed == t.players[0].seed;
    assert forall a :: 1 <= a <= n - 2 ==> (Same(Excess(v, a), 0) <==> Excess(v, a) % TWO_64 == 0);
  }

  /** Whatever the seeds are, the last two players agree. */
  lemma LastTwoAgree(n: nat, v: seq<nat>, t: State)
    requires 2 <= n && FinalSeeds(n, v, t)
    ensures t.players[n - 2].seed == t.players[n - 1].seed
  {
    NextTail(n, v, n - 2);
    assert Tail(n, v, n - 1, n) == 0;
    SameSeed(t.players[n - 2].seed, t.players[n - 1].seed, Tail(n, v, n - 2, n - 2), Tail(n, v, n - 1, n - 1));
  }

  /** Two players always agree, on the sum of their seeds. */
  lemma TwoPlayersAgree(v: seq<nat>, t: State)
    requires FinalSeeds(2, v, t)
    ensures t.players[0].seed == t.players[1].seed && Stands(t.players[0].seed, v[0] + v[1])
  {
    AllAgreeIff(2, v, t);
    assert t.players[1].seed == t.players[0].seed;
    PlayerZero(2, v, t);
    assert Sum(v) == v[0] + Sum(v[1..]) && Sum(v[1..]) == v[1] + Sum(v[1..][1..]);
  }

  /** Three players agree exactly if the seeds of players 0 and 2 cancel out. */
  lemma ThreePlayersAgreeIff(v: seq<nat>, t: State)
    requires FinalSeeds(3, v, t)
    ensures t.players[1].seed == t.players[2].seed
    ensures t.players[0].seed == t.players[1].seed <==> Wrap(v[0] + v[2]) == 0
  {
    AllAgreeIff(3, v, t);
    LastTwoAgree(3, v, t);
    ExcessOfThree(v);
    assert (forall a :: 1 <= a <= 1 ==> Excess(v, a) % TWO_64 == 0) <==> Excess(v, 1) % TWO_64 == 0;
  }

  lemma ExcessOfThree(v: seq<nat>)
    requires |v| == 3
    ensures Excess(v, 1) == v[0] + v[2]
  {
    assert Choose(1, 0) == 1 && Choose(1, 1) == Choose(0, 0) + Choose(0, 1) == 1;
    assert Weighted(v, 1, 1, 2) == Choose(1, 1) * v[2] + Weighted(v, 1, 1, 3);
  }

  /** So three players can end with different seeds. */
  lemma ThreePlayersDisagree(one: string, zero: string) returns (shares: seq<Share>, s: State)
    requires IsSeed(one) && IsSeed(zero) && Value(one) == 1 && Value(zero) == 0
    ensures IsInit(3, shares, [one, zero, zero], s) && Tables(s) && IsRun(s, Schedule(3))
    ensures var t := After(s, Schedule(3));
            |t.players| == 3 && t.players[0].seed != t.players[1].seed
  {
    shares, s := ThreePlayers(one, zero);
    Result(3, shares, [one, zero, zero], s);
    ThreePlayersAgreeIff(Values([one, zero, zero]), After(s, Schedule(3)));
  }

  lemma ThreePlayers(one: string, zero: string) returns (shares: seq<Share>, s: State)
    requires IsSeed(one) && IsSeed(zero)
    ensures IsInit(3, shares, [one, zero, zero], s) && Tables(s)
  {
    var none := Share("", "");
    var empty := ["", "", ""];
    shares := [none, none, none];
    s := State([Player(First(3, 0), empty, empty, one), Player(First(3, 1), empty, empty, zero),
                Player(First(3, 2), empty, empty, zero)], false);
  }
}

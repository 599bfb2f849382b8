/** The keys of rosters and roster entries in etcd, and how they are parsed. */
module EtcdKeys {
  import opened Wrappers
  import opened Text

  const ROSTER := "/klyshko/roster"
  const HEADS := "/klyshko/heads"
  const MAX_UINT32 := 0xFFFF_FFFF
  const MAX_INT64 := 0x7FFF_FFFF_FFFF_FFFF

  datatype Key =
    | RosterKey(ns: string, name: string)
    | RosterEntryKey(ns: string, name: string, playerId: nat)

  datatype ParseError = NotAKey | NotAnInteger | OutOfRange

  predicate IsWord(s: string) {
    s != "" && forall c :: c in s ==> IsDigit(c) || 'A' <= c <= 'Z' || 'a' <= c <= 'z' || c == '_' || c == '-'
  }

  predicate WellFormed(k: Key) {
    IsWord(k.ns) && IsWord(k.name) && (k.RosterEntryKey? ==> k.playerId <= MAX_UINT32)
  }

  function Slash(a: string, b: string): string {
    a + "/" + b
  }

  function ToEtcdKey(k: Key): string {
    match k
    case RosterKey(ns, name) => Slash(Slash(ROSTER, ns), name)
    case RosterEntryKey(ns, name, id) => Slash(Slash(Slash(ROSTER, ns), name), Print(id))
  }

  function HeadKey(player: nat): string {
    Slash(HEADS, Print(player))
  }

  // The key pattern: the roster prefix, two words and, optionally, a numeral.

  predicate MatchesPattern(s: string, ns: string, job: string, id: string) {
    && IsWord(ns) && IsWord(job) && (id == "" || IsNumeral(id))
    && s == if id == "" then Slash(Slash(ROSTER, ns), job) else Slash(Slash(Slash(ROSTER, ns), job), id)
  }

  /** The values of all groups of the pattern, the unnamed ones (and the whole match) included. */
  function FindSubmatch(s: string): (groups: Option<seq<string>>)
    ensures groups.Some? ==> |groups.value| == |GROUPS| && groups.value[1] != "" && groups.value[3] != ""
  {
    var parts := Split(s, '/');
    if 5 <= |parts| <= 6 && parts[..3] == PREFIX && IsWord(parts[3]) && IsWord(parts[4])
       && (|parts| == 6 ==> IsNumeral(parts[5]))
    then Some([s, parts[3], parts[3][|parts[3]| - 1..], parts[4], parts[4][|parts[4]| - 1..],
               if |parts| == 6 then parts[5] else ""])
    else None
  }

  const GROUPS := ["", "namespace", "", "jobName", "", "localPlayerID"]

  const PREFIX := ["", "klyshko", "roster"]

  lemma SplitSlash(a: string, b: string)
    ensures Split(Slash(a, b), '/') == Split(a, '/') + Split(b, '/')
  {
    SplitConcat(a, b, '/');
  }

  lemma JoinSlash(parts: seq<string>, b: string)
    requires parts != []
    ensures Join(parts + [b], '/') == Slash(Join(parts, '/'), b)
  {
    JoinMore(parts, b, '/');
  }

  lemma PrefixParts()
    ensures Split(ROSTER, '/') == PREFIX && Join(PREFIX, '/') == ROSTER
  {
    TwoParts("klyshko", "roster");
    assert ROSTER == ['/'] + "klyshko" + ['/'] + "roster";
    JoinOfSplit(ROSTER, '/');
  }

  lemma TwoParts(a: string, b: string)
    requires '/' !in a && '/' !in b
    ensures Split(['/'] + a + ['/'] + b, '/') == ["", a, b]
  {
    SplitPart("", '/');
    SplitPart(a, '/');
    SplitPart(b, '/');
    SplitConcat("", a, '/');
    assert "" + ['/'] + a == ['/'] + a;
    SplitConcat(['/'] + a, b, '/');
  }

  /** The parts of a path below some prefix. */
  lemma RosterParts(pre: string, ns: string, job: string, id: string)
    ensures Split(Slash(Slash(pre, ns), job), '/') == Split(pre, '/') + Split(ns, '/') + Split(job, '/')
    ensures Split(Slash(Slash(Slash(pre, ns), job), id), '/')
            == Split(pre, '/') + Split(ns, '/') + Split(job, '/') + Split(id, '/')
  {
    SplitSlash(pre, ns);
    SplitSlash(Slash(pre, ns), job);
    SplitSlash(Slash(Slash(pre, ns), job), id);
  }

  lemma JoinedParts(pre: seq<string>, ns: string, job: string, id: string)
    requires pre != []
    ensures Join(pre + [ns, job], '/') == Slash(Slash(Join(pre, '/'), ns), job)
    ensures Join(pre + [ns, job, id], '/') == Slash(Slash(Slash(Join(pre, '/'), ns), job), id)
  {
    JoinSlash(pre, ns);
    JoinSlash(pre + [ns], job);
    JoinSlash(pre + [ns] + [job], id);
    assert pre + [ns] + [job] == pre + [ns, job];
    assert pre + [ns] + [job] + [id] == pre + [ns, job, id];
  }

  /** The matcher accepts exactly the strings of the pattern, and the groups are the only ones possible. */
  lemma MatcherIsExact(s: string, ns: string, job: string, id: string)
    ensures MatchesPattern(s, ns, job, id) <==>
            FindSubmatch(s).Some? && FindSubmatch(s).value[1] == ns && FindSubmatch(s).value[3] == job
            && FindSubmatch(s).value[5] == id
  {
    if MatchesPattern(s, ns, job, id) {
      PatternMatches(s, ns, job, id);
    }
    if FindSubmatch(s).Some? {
      MatchedParts(s);
    }
  }

  lemma MatchedParts(s: string)
    requires FindSubmatch(s).Some?
    ensures var g := FindSubmatch(s).value; MatchesPattern(s, g[1], g[3], g[5])
  {
    var parts := Split(s, '/');
    JoinOfSplit(s, '/');
    PrefixParts();
    JoinedParts(PREFIX, parts[3], parts[4], if |parts| == 6 then parts[5] else "");
    assert parts == PREFIX + parts[3..];
    assert parts[3..] == if |parts| == 6 then [parts[3], parts[4], parts[5]] else [parts[3], parts[4]];
  }

  lemma PatternMatches(s: string, ns: string, job: string, id: string)
    requires MatchesPattern(s, ns, job, id)
    ensures Split(s, '/') == PREFIX + (if id == "" then [ns, job] else [ns, job, id])
  {
    PrefixParts();
    PathParts(ROSTER, ns, job, id);
  }

  lemma PathParts(pre: string, ns: string, job: string, id: string)
    requires IsWord(ns) && IsWord(job) && (id == "" || IsNumeral(id))
    ensures Split(Slash(Slash(pre, ns), job), '/') == Split(pre, '/') + [ns, job]
    ensures Split(Slash(Slash(Slash(pre, ns), job), id), '/') == Split(pre, '/') + [ns, job, id]
  {
    RosterParts(pre, ns, job, id);
    SplitPart(ns, '/');
    SplitPart(job, '/');
    SplitPart(id, '/');
    assert [ns] + [job] == [ns, job] && [ns] + [job] + [id] == [ns, job, id];
  }

  /** The named groups that are not empty. */
  function KeyParts(s: string): Option<map<string, string>> {
    match FindSubmatch(s)
    case None => None
    case Some(g) => Some(Named(g))
  }

  function Named(g: seq<string>): map<string, string>
    requires |g| == |GROUPS|
  {
    if g[5] == "" then map["namespace" := g[1], "jobName" := g[3]]
    else map["namespace" := g[1], "jobName" := g[3], "localPlayerID" := g[5]]
  }

  method EtcdKeyParts(s: string) returns (result: Option<map<string, string>>)
    ensures result == KeyParts(s)
  {
    var found := FindSubmatch(s);
    if found.None? {
      return None;
    }
    var parts: map<string, string> := map[];
    for i := 0 to |GROUPS|
      invariant i <= 1 ==> parts == map[]
      invariant 2 <= i <= 3 ==> parts == map["namespace" := found.value[1]]
      invariant 4 <= i <= 5 ==> parts == map["namespace" := found.value[1], "jobName" := found.value[3]]
      invariant i == 6 ==> parts == Named(found.value)
    {
      var name := GROUPS[i];
      if i != 0 && name != "" && found.value[i] != "" {
        parts := parts[name := found.value[i]];
      }
    }
    return Some(parts);
  }

  function ParseKey(s: string): Result<Key, ParseError> {
    match KeyParts(s)
    case None => Err(NotAKey)
    case Some(parts) =>
      var ns, name := parts["namespace"], parts["jobName"];
      if "localPlayerID" !in parts then Ok(RosterKey(ns, name))
      else
        var id := Value(parts["localPlayerID"]);
        if id > MAX_INT64 then Err(NotAnInteger)
        else if id > MAX_UINT32 then Err(OutOfRange)
        else Ok(RosterEntryKey(ns, name, id))
  }

  /** Parsing inverts printing, for both kinds of keys. */
  lemma ParseOfPrint(k: Key)
    requires WellFormed(k)
    ensures ParseKey(ToEtcdKey(k)) == Ok(k)
  {
    if k.RosterEntryKey? {
      PrintIsCanonical(k.playerId);
      MatcherIsExact(ToEtcdKey(k), k.ns, k.name, Print(k.playerId));
    } else {
      MatcherIsExact(ToEtcdKey(k), k.ns, k.name, "");
    }
  }

  /** Whatever is accepted is a well-formed key and prints to the accepted string again, up to leading zeros of the
      player id, hence exactly if the id has none. */
  lemma PrintOfParse(s: string) returns (zeros: nat)
    requires ParseKey(s).Ok?
    ensures var k := ParseKey(s).value;
            && WellFormed(k)
            && s == (if k.RosterKey? then ToEtcdKey(k)
                     else Slash(ToEtcdKey(RosterKey(k.ns, k.name)), Zeros(zeros) + Print(k.playerId)))
            && (ToEtcdKey(k) == s <==> zeros == 0)
  {
    zeros := 0;
    var k := ParseKey(s).value;
    var g := FindSubmatch(s).value;
    MatcherIsExact(s, g[1], g[3], g[5]);
    if g[5] != "" {
      zeros := NumeralIsPadded(g[5]);
      SlashAgrees(ToEtcdKey(RosterKey(k.ns, k.name)), Zeros(zeros) + Print(k.playerId), Print(k.playerId));
      ZerosLength(zeros);
      assert zeros == 0 ==> Zeros(zeros) + Print(k.playerId) == Print(k.playerId);
    }
  }

  lemma SlashAgrees(a: string, b: string, c: string)
    ensures Slash(a, b) == Slash(a, c) <==> b == c
  {
    assert Slash(a, b)[|a| + 1..] == b && Slash(a, c)[|a| + 1..] == c;
  }

  lemma {:induction false} ZerosLength(k: nat)
    ensures |Zeros(k)| == k
  {
    if k > 0 {
      ZerosLength(k - 1);
    }
  }

  /** Acceptance: exactly the strings of the pattern whose player id, if any, fits 32 bits. Beyond 63 bits it is not
      even taken for an integer. */
  lemma AcceptedKeys(s: string)
    ensures ParseKey(s).Ok? <==>
            exists ns, job, id :: MatchesPattern(s, ns, job, id) && (id == "" || Value(id) <= MAX_UINT32)
    ensures ParseKey(s) == Err(NotAKey) <==> forall ns, job, id :: !MatchesPattern(s, ns, job, id)
    ensures ParseKey(s) == Err(NotAnInteger) <==>
            exists ns, job, id :: MatchesPattern(s, ns, job, id) && id != "" && Value(id) > MAX_INT64
  {
    if FindSubmatch(s).Some? {
      var g := FindSubmatch(s).value;
      MatcherIsExact(s, g[1], g[3], g[5]);
    }
    forall ns, job, id | MatchesPattern(s, ns, job, id)
      ensures ParseKey(s).Ok? <==> id == "" || Value(id) <= MAX_UINT32
      ensures ParseKey(s) == Err(NotAnInteger) <==> id != "" && Value(id) > MAX_INT64
      ensures ParseKey(s) != Err(NotAKey)
    {
      MatcherIsExact(s, ns, job, id);
    }
  }

  /** The keys of player 12 and its job, as they are in etcd. */
  lemma KeyStrings()
    ensures ToEtcdKey(RosterKey("ns-1", "My_Job-9")) == "/klyshko/roster/ns-1/My_Job-9"
    ensures ToEtcdKey(RosterEntryKey("ns-1", "My_Job-9", 12)) == "/klyshko/roster/ns-1/My_Job-9/12"
    ensures ParseKey("/klyshko/roster/ns-1/My_Job-9/12") == Ok(RosterEntryKey("ns-1", "My_Job-9", 12))
    ensures HeadKey(12) == "/klyshko/heads/12"
  {
    var key := RosterEntryKey("ns-1", "My_Job-9", 12);
    assert Print(12) == "12";
    assert Slash(HEADS, "12") == "/klyshko/heads/12";
    var roster := Slash(ROSTER, "ns-1");
    assert roster == "/klyshko/roster/ns-1";
    assert Slash(roster, "My_Job-9") == "/klyshko/roster/ns-1/My_Job-9";
    assert Slash("/klyshko/roster/ns-1/My_Job-9", "12") == "/klyshko/roster/ns-1/My_Job-9/12";
    ParseOfPrint(key);
  }

  /** Names with dots or blanks, which Kubernetes allows in part, are not words of a key. */
  lemma NotWords()
    ensures !IsWord("") && !IsWord("a.b") && !IsWord("a b") && !IsWord("a/b")
  {
    var dot, blank, slash := "a.b", "a b", "a/b";
    assert dot[1] in dot && blank[1] in blank && slash[1] in slash;
  }

  /** Different keys have different strings; in particular a roster is never taken for a roster entry. */
  lemma KeysDiffer(k: Key, l: Key)
    requires WellFormed(k) && WellFormed(l) && k != l
    ensures ToEtcdKey(k) != ToEtcdKey(l)
  {
    ParseOfPrint(k);
    ParseOfPrint(l);
  }

  /** Head revisions are stored outside of the watched prefix, and every player has a key of its own. */
  lemma HeadsAreNotWatched(p: nat, q: nat)
    ensures !(ROSTER <= HeadKey(p))
    ensures p != q ==> HeadKey(p) != HeadKey(q)
  {
    assert HeadKey(p)[9] == 'h' && ROSTER[9] == 'r';
    PrintIsCanonical(p);
    PrintIsCanonical(q);
    SlashAgrees(HEADS, Print(p), Print(q));
  }
}

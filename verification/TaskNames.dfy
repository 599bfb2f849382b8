/** Task names, how jobs and players are recovered from them, and the redirection of remote tasks to the local one. */
module TaskNames {
  import opened Wrappers
  import opened Text
  import opened EtcdKeys

  function TaskName(job: string, player: nat): string {
    job + "-" + Print(player)
  }

  function LastIndex(s: string, c: char): int {
    if s == "" then -1 else if s[|s| - 1] == c then |s| - 1 else LastIndex(s[..|s| - 1], c)
  }

  /** None where the source panics: the name has no hyphen. */
  function JobNameFromTaskName(name: string): Option<string> {
    var i := LastIndex(name, '-');
    if 0 <= i < |name| then Some(name[..i]) else None
  }

  datatype NameError = NotParsed(error: ParseError) | NotATaskKey

  function TaskKeyFromName(ns: string, name: string): Result<Key, NameError> {
    var parts := Split(name, '-');
    var keyStr := Slash(Slash(Slash(ROSTER, ns), Join(parts[..|parts| - 1], '-')), parts[|parts| - 1]);
    match ParseKey(keyStr)
    case Err(e) => Err(NotParsed(e))
    case Ok(k) => if k.RosterEntryKey? then Ok(k) else Err(NotATaskKey)
  }

  lemma {:induction false} LastIndexOf(s: string, t: string, c: char)
    requires c !in t
    ensures LastIndex(s + [c] + t, c) == |s|
  {
    var w := s + [c] + t;
    if t == "" {
      assert w[|w| - 1] == c;
    } else {
      LastIndexOf(s, t[..|t| - 1], c);
      assert w[..|w| - 1] == s + [c] + t[..|t| - 1];
      assert t[|t| - 1] in t;
    }
  }

  lemma JobNameOf(job: string, d: string)
    requires '-' !in d
    ensures JobNameFromTaskName(job + "-" + d) == Some(job)
  {
    LastIndexOf(job, d, '-');
    assert job + "-" + d == job + ['-'] + d;
    assert (job + "-" + d)[..|job|] == job;
  }

  /** Job and player are recovered from every name of a job and a numeral, whatever hyphens and digits the job name
      contains. */
  lemma NamesOf(ns: string, job: string, d: string)
    requires IsWord(ns) && IsWord(job) && IsNumeral(d) && Value(d) <= MAX_UINT32
    ensures TaskKeyFromName(ns, job + "-" + d) == Ok(RosterEntryKey(ns, job, Value(d)))
    ensures JobNameFromTaskName(job + "-" + d) == Some(job)
  {
    var name := job + "-" + d;
    var parts := Split(name, '-');
    JobNameOf(job, d);
    SplitConcat(job, d, '-');
    SplitPart(d, '-');
    JoinOfSplit(job, '-');
    assert parts[..|parts| - 1] == Split(job, '-');
    MatcherIsExact(Slash(Slash(Slash(ROSTER, ns), job), d), ns, job, d);
  }

  /** Both name functions invert TaskName. */
  lemma NamesInvert(ns: string, job: string, player: nat)
    requires IsWord(ns) && IsWord(job) && player <= MAX_UINT32
    ensures TaskKeyFromName(ns, TaskName(job, player)) == Ok(RosterEntryKey(ns, job, player))
    ensures JobNameFromTaskName(TaskName(job, player)) == Some(job)
  {
    PrintIsCanonical(player);
    NamesOf(ns, job, Print(player));
  }

  lemma TaskNamesDiffer(job: string, player: nat, job': string, player': nat)
    requires IsWord(job) && IsWord(job') && player <= MAX_UINT32 && player' <= MAX_UINT32
    requires job != job' || player != player'
    ensures TaskName(job, player) != TaskName(job', player')
  {
    NamesInvert("default", job, player);
    NamesInvert("default", job', player');
  }

  /** An accepted name is a job, a hyphen and a numeral; it is the task's own name exactly if the numeral has no
      leading zero. The job lookup of the redirection never panics on it. */
  lemma AcceptedNames(ns: string, name: string) returns (d: string)
    requires TaskKeyFromName(ns, name).Ok?
    ensures var k := TaskKeyFromName(ns, name).value;
            && WellFormed(k) && k.ns == ns && IsNumeral(d) && Value(d) == k.playerId
            && name == k.name + "-" + d
            && JobNameFromTaskName(name) == Some(k.name)
            && (name == TaskName(k.name, k.playerId) <==> Canonical(d))
  {
    var parts := Split(name, '-');
    var job := Join(parts[..|parts| - 1], '-');
    d := parts[|parts| - 1];
    KeyOfParts(ns, job, d);
    JoinOfSplit(name, '-');
    assert parts == parts[..|parts| - 1] + [d];
    assert job != "" && parts[..|parts| - 1] != [];
    JoinMore(parts[..|parts| - 1], d, '-');
    JobNameOf(job, d);
    SameName(job, d, TaskKeyFromName(ns, name).value.playerId);
  }

  lemma SameName(job: string, d: string, player: nat)
    requires IsNumeral(d) && Value(d) == player
    ensures job + "-" + d == TaskName(job, player) <==> Canonical(d)
  {
    PrintIsCanonical(player);
    if Canonical(d) {
      ValueOfCanonical(d);
    }
    assert (job + "-" + d)[|job| + 1..] == d && TaskName(job, player)[|job| + 1..] == Print(player);
  }

  lemma SinglePart(t: string)
    requires |Split(t, '/')| == 1
    ensures Split(t, '/') == [t]
  {
    JoinOfSplit(t, '/');
  }

  lemma SixParts(pre: seq<string>, a: seq<string>, b: seq<string>, c: seq<string>)
    requires |pre| == 3 && a != [] && b != [] && c != [] && 5 <= |pre + a + b + c| <= 6
    ensures |a| == |b| == |c| == 1
    ensures (pre + a + b + c)[3..] == [a[0], b[0], c[0]]
  {
  }

  /** A key string made of three parts with a player id is read back into these parts. */
  lemma KeyOfParts(ns: string, job: string, d: string)
    requires var r := ParseKey(Slash(Slash(Slash(ROSTER, ns), job), d)); r.Ok? && r.value.RosterEntryKey?
    ensures IsNumeral(d) && ParseKey(Slash(Slash(Slash(ROSTER, ns), job), d)).value == RosterEntryKey(ns, job, Value(d))
    ensures IsWord(ns) && IsWord(job) && Value(d) <= MAX_UINT32
  {
    var parts := Split(Slash(Slash(Slash(ROSTER, ns), job), d), '/');
    PrefixParts();
    RosterParts(ROSTER, ns, job, d);
    assert 5 <= |parts| <= 6;
    SixParts(PREFIX, Split(ns, '/'), Split(job, '/'), Split(d, '/'));
    SinglePart(ns);
    SinglePart(job);
    SinglePart(d);
    assert parts[3..] == [ns, job, d];
  }

  lemma JobOfAcceptedName(ns: string, name: string)
    requires TaskKeyFromName(ns, name).Ok?
    ensures var k := TaskKeyFromName(ns, name).value;
            WellFormed(k) && k.RosterEntryKey? && k.ns == ns && JobNameFromTaskName(name) == Some(k.name)
  {
    var _ := AcceptedNames(ns, name);
  }

  // Redirection.

  /** Where a reconcile request ends up: the request itself if it names the local task, else, by one recursive call,
      the local task of the same job. The decreases clause says that there is at most one recursive call. */
  function Redirect(ns: string, name: string, local: nat): (r: Result<(string, Key), NameError>)
    requires local <= MAX_UINT32
    ensures r.Ok? <==> TaskKeyFromName(ns, name).Ok?
    ensures r.Ok? ==> r.value.1 == TaskKeyFromName(ns, name).value.(playerId := local)
    decreases if TaskKeyFromName(ns, name).Ok? && TaskKeyFromName(ns, name).value.playerId != local then 1 else 0
  {
    match TaskKeyFromName(ns, name)
    case Err(e) => Err(e)
    case Ok(k) =>
      if k.playerId == local then Ok((name, k))
      else
        JobOfAcceptedName(ns, name);
        NamesInvert(ns, k.name, local);
        Redirect(ns, TaskName(JobNameFromTaskName(name).value, local), local)
  }

  /** The name acted upon is the local task's own name, unless the request named the local player with leading zeros. */
  lemma RedirectedName(ns: string, name: string, local: nat) returns (d: string)
    requires local <= MAX_UINT32 && TaskKeyFromName(ns, name).Ok?
    ensures var k := TaskKeyFromName(ns, name).value;
            && name == k.name + "-" + d && IsNumeral(d)
            && (Redirect(ns, name, local).value.0 == TaskName(k.name, local) <==> k.playerId != local || Canonical(d))
  {
    d := AcceptedNames(ns, name);
    var k := TaskKeyFromName(ns, name).value;
    NamesInvert(ns, k.name, local);
  }

  /** On player 0 a request for task a-00 is acted upon under that name, not as the local task a-0. */
  lemma LeadingZeroIsKept(ns: string)
    requires IsWord(ns)
    ensures Redirect(ns, "a-00", 0) == Ok(("a-00", RosterEntryKey(ns, "a", 0)))
    ensures TaskName("a", 0) == "a-0" != "a-00"
  {
    ZeroZero();
    assert "a" + "-" + "00" == "a-00";
    LocalName(ns, "a", "00", 0);
  }

  /** A numeral of the local player is not replaced, whatever it looks like. */
  lemma LocalName(ns: string, job: string, d: string, local: nat)
    requires IsWord(ns) && IsWord(job) && IsNumeral(d) && Value(d) == local <= MAX_UINT32
    ensures Redirect(ns, job + "-" + d, local) == Ok((job + "-" + d, RosterEntryKey(ns, job, local)))
  {
    NamesOf(ns, job, d);
  }

  lemma ZeroZero()
    ensures IsNumeral("00") && Value("00") == 0
  {
    assert "00"[..1] == "0" && "0"[..0] == "";
    assert Value("0") == 0;
  }
}

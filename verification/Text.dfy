/** Strings: splitting at and joining with a separator, and decimal numbers. */
module Text {
  /** The parts of s between occurrences of c; at least one. */
  function Split(s: string, c: char): (parts: seq<string>)
    ensures parts != []
  {
    if s == "" then [""]
    else
      var parts := Split(s[..|s| - 1], c);
      if s[|s| - 1] == c then parts + [""] else Grow(parts, s[|s| - 1])
  }

  function Grow(parts: seq<string>, d: char): (grown: seq<string>)
    requires parts != []
    ensures |grown| == |parts|
  {
    parts[..|parts| - 1] + [parts[|parts| - 1] + [d]]
  }

  function Join(parts: seq<string>, c: char): string {
    if parts == [] then ""
    else if |parts| == 1 then parts[0]
    else Join(parts[..|parts| - 1], c) + [c] + parts[|parts| - 1]
  }

  lemma JoinMore(parts: seq<string>, x: string, c: char)
    requires parts != []
    ensures Join(parts + [x], c) == Join(parts, c) + [c] + x
  {
    assert (parts + [x])[..|parts|] == parts;
  }

  lemma JoinLonger(init: seq<string>, x: string, d: char, c: char)
    ensures Join(init + [x + [d]], c) == Join(init + [x], c) + [d]
  {
    if init != [] {
      JoinMore(init, x, c);
      JoinMore(init, x + [d], c);
    }
  }

  lemma {:induction false} JoinOfSplit(s: string, c: char)
    ensures Join(Split(s, c), c) == s
  {
    if s != "" {
      var rest, last := s[..|s| - 1], s[|s| - 1];
      var parts := Split(rest, c);
      JoinOfSplit(rest, c);
      assert s == rest + [last];
      if last == c {
        JoinMore(parts, "", c);
      } else {
        var init, x := parts[..|parts| - 1], parts[|parts| - 1];
        assert parts == init + [x];
        JoinLonger(init, x, last, c);
      }
    }
  }

  lemma {:induction false} SplitPart(t: string, c: char)
    requires c !in t
    ensures Split(t, c) == [t]
  {
    if t != "" {
      SplitPart(t[..|t| - 1], c);
      assert t == t[..|t| - 1] + [t[|t| - 1]];
    }
  }

  lemma GrowConcat(a: seq<string>, b: seq<string>, d: char)
    requires b != []
    ensures Grow(a + b, d) == a + Grow(b, d)
  {
    assert (a + b)[..|a + b| - 1] == a + b[..|b| - 1];
  }

  lemma SplitSnoc(s: string, d: char, c: char)
    ensures Split(s + [d], c) == if d == c then Split(s, c) + [""] else Grow(Split(s, c), d)
  {
    assert (s + [d])[..|s|] == s;
  }

  lemma {:induction false} SplitConcat(s: string, t: string, c: char)
    ensures Split(s + [c] + t, c) == Split(s, c) + Split(t, c)
  {
    if t == "" {
      SplitSnoc(s, c, c);
      assert s + [c] + t == s + [c];
    } else {
      var init, last := t[..|t| - 1], t[|t| - 1];
      SplitConcat(s, init, c);
      assert t == init + [last] && s + [c] + t == (s + [c] + init) + [last];
      SplitSnoc(s + [c] + init, last, c);
      SplitSnoc(init, last, c);
      if last != c {
        GrowConcat(Split(s, c), Split(init, c), last);
      }
    }
  }

  // Decimal numbers.

  predicate IsDigit(c: char) {
    '0' <= c <= '9'
  }

  predicate IsNumeral(s: string) {
    s != "" && forall c :: c in s ==> IsDigit(c)
  }

  function Print(n: nat): string {
    if n < 10 then [('0' as int + n) as char] else Print(n / 10) + [('0' as int + n % 10) as char]
  }

  function Value(s: string): nat
    requires forall c :: c in s ==> IsDigit(c)
  {
    if s == "" then 0
    else
      var last := s[|s| - 1];
      assert last in s && IsDigit(last);
      10 * Value(s[..|s| - 1]) + (last as int - '0' as int)
  }

  predicate Canonical(s: string) {
    IsNumeral(s) && (|s| == 1 || s[0] != '0')
  }

  lemma {:induction false} PrintIsCanonical(n: nat)
    ensures Canonical(Print(n)) && Value(Print(n)) == n && (n > 0 ==> Print(n)[0] != '0')
  {
    if n < 10 {
      assert Print(n)[..0] == "";
    } else {
      PrintIsCanonical(n / 10);
      assert Print(n)[..|Print(n)| - 1] == Print(n / 10);
    }
  }

  lemma {:induction false} ValueOfCanonical(s: string)
    requires Canonical(s)
    ensures Print(Value(s)) == s && (s[0] != '0' ==> Value(s) > 0)
  {
    var init, d := s[..|s| - 1], s[|s| - 1] as int - '0' as int;
    assert s == init + [s[|s| - 1]];
    assert s[|s| - 1] in s;
    if init == "" {
      assert Value(init) == 0;
    } else {
      ValueOfCanonical(init);
      assert Value(s) / 10 == Value(init) && Value(s) % 10 == d;
    }
  }

  function Zeros(k: nat): string {
    if k == 0 then "" else "0" + Zeros(k - 1)
  }

  /** A numeral is its value printed, up to leading zeros. */
  lemma {:induction false} NumeralIsPadded(s: string) returns (k: nat)
    requires IsNumeral(s)
    ensures s == Zeros(k) + Print(Value(s)) && (k == 0 <==> Canonical(s))
  {
    k := 0;
    if Canonical(s) {
      ValueOfCanonical(s);
    } else {
      LeadingZero(s);
      k := NumeralIsPadded(s[1..]);
      k := k + 1;
      assert s == "0" + s[1..];
    }
  }

  lemma {:induction false} LeadingZero(s: string)
    requires IsNumeral(s) && s[0] == '0' && |s| > 1
    ensures Value(s[1..]) == Value(s)
  {
    var init := s[..|s| - 1];
    assert s[1..][..|s| - 2] == init[1..];
    if |s| > 2 {
      LeadingZero(init);
    } else {
      assert init == "0" && init[..0] == "" && init[1..] == "";
    }
  }
}

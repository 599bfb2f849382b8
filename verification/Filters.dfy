/** Selecting elements of a list. */
module Filters {
  function Filter<T>(s: seq<T>, keep: T -> bool): seq<T> {
    if s == [] then []
    else
      var last := s[|s| - 1];
      Filter(s[..|s| - 1], keep) + if keep(last) then [last] else []
  }

  /** The selected elements are those at the given positions, in the same order: exactly the elements to be kept. */
  ghost predicate IsSelection<T>(s: seq<T>, keep: T -> bool, selected: seq<T>, at: seq<nat>) {
    && |at| == |selected|
    && (forall i, k :: 0 <= i < k < |at| ==> at[i] < at[k])
    && (forall i :: 0 <= i < |at| ==> at[i] < |s| && selected[i] == s[at[i]])
    && (forall k :: 0 <= k < |s| ==> (keep(s[k]) <==> k in at))
  }

  lemma FilterMore<T>(s: seq<T>, x: T, keep: T -> bool)
    ensures Filter(s + [x], keep) == Filter(s, keep) + if keep(x) then [x] else []
  {
    assert (s + [x])[..|s|] == s;
  }

  lemma SelectOne<T>(s: seq<T>, x: T, keep: T -> bool, selected: seq<T>, at: seq<nat>)
    requires IsSelection(s, keep, selected, at) && keep(x)
    ensures IsSelection(s + [x], keep, selected + [x], at + [|s|])
  {
    var more, now := s + [x], at + [|s|];
    forall k | 0 <= k < |more| ensures keep(more[k]) <==> k in now {
      if k < |s| {
        assert more[k] == s[k] && (k in now <==> k in at);
      } else {
        assert now[|at|] == k;
      }
    }
  }

  lemma SkipOne<T>(s: seq<T>, x: T, keep: T -> bool, selected: seq<T>, at: seq<nat>)
    requires IsSelection(s, keep, selected, at) && !keep(x)
    ensures IsSelection(s + [x], keep, selected, at)
  {
    var more := s + [x];
    forall k | 0 <= k < |more| ensures keep(more[k]) <==> k in at {
      if k < |s| {
        assert more[k] == s[k];
      }
    }
  }

  lemma {:induction false} FilterSelects<T>(s: seq<T>, keep: T -> bool) returns (at: seq<nat>)
    ensures IsSelection(s, keep, Filter(s, keep), at)
  {
    at := [];
    if s != [] {
      var init, last := s[..|s| - 1], s[|s| - 1];
      at := FilterSelects(init, keep);
      assert s == init + [last];
      if keep(last) {
        SelectOne(init, last, keep, Filter(init, keep), at);
        at := at + [|init|];
      } else {
        SkipOne(init, last, keep, Filter(init, keep), at);
        assert Filter(init, keep) + [] == Filter(init, keep);
      }
    }
  }

  lemma {:induction false} FilterMembers<T>(s: seq<T>, keep: T -> bool)
    ensures forall x :: x in Filter(s, keep) <==> x in s && keep(x)
  {
    if s != [] {
      FilterMembers(s[..|s| - 1], keep);
      assert s == s[..|s| - 1] + [s[|s| - 1]];
    }
  }

  lemma {:induction false} FilterTwice<T>(s: seq<T>, keep: T -> bool, more: T -> bool, both: T -> bool)
    requires forall x :: both(x) <==> keep(x) && more(x)
    ensures Filter(Filter(s, keep), more) == Filter(s, both)
  {
    if s != [] {
      var init, last := s[..|s| - 1], s[|s| - 1];
      FilterTwice(init, keep, more, both);
      FilterMore(Filter(init, keep), last, more);
      assert Filter(init, keep) + [] == Filter(init, keep);
    }
  }
}

/** Picking elements of a sequence. */
module Sequences {

  /** The elements that pass the test, in order. */
  function Filter<T>(s: seq<T>, keep: T -> bool): seq<T> {
    if s == [] then []
    else Filter(s[..|s| - 1], keep) + if keep(s[|s| - 1]) then [s[|s| - 1]] else []
  }

  /** `picks` lists, from left to right, exactly the positions of `s` that pass the test. */
  ghost predicate Picks<T>(s: seq<T>, keep: T -> bool, picks: seq<nat>) {
    && (forall m, n | 0 <= m < n < |picks| :: picks[m] < picks[n])
    && (forall i: nat :: i in picks <==> i < |s| && keep(s[i]))
  }

  /** Where the elements of a filtered sequence come from. */
  lemma {:induction false} FilterPicks<T>(s: seq<T>, keep: T -> bool) returns (picks: seq<nat>)
    ensures Picks(s, keep, picks) && |picks| == |Filter(s, keep)|
    ensures forall m | 0 <= m < |picks| :: picks[m] < |s| && Filter(s, keep)[m] == s[picks[m]]
  {
    if s == [] {
      picks := [];
    } else {
      var n := |s| - 1;
      var before := FilterPicks(s[..n], keep);
      picks := before + if keep(s[n]) then [n] else [];
      forall i: nat ensures i in picks <==> i < |s| && keep(s[i]) {
        assert i in before <==> i < n && keep(s[..n][i]);
      }
      forall m | 0 <= m < |before| ensures before[m] < n {
        assert before[m] in before;
      }
    }
  }

  /** An element is kept as often as it occurs, or not at all. */
  lemma {:induction false} FilterCounts<T>(s: seq<T>, keep: T -> bool, x: T)
    ensures multiset(Filter(s, keep))[x] == if keep(x) then multiset(s)[x] else 0
  {
    if s != [] {
      assert s == s[..|s| - 1] + [s[|s| - 1]];
      FilterCounts(s[..|s| - 1], keep, x);
    }
  }
}

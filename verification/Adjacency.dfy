/** Adjacent period pairs, the cells of double lessons: `adjacentCapacity` and the solver's pair list. */
module Adjacency {
  import opened Model

  /** Positions `i` and `i + 1` hold consecutive periods of one day that are both available. */
  predicate Pairable(periods: seq<Period>, i: nat, unavailable: set<Id>) {
    && i + 1 < |periods|
    && periods[i].day == periods[i + 1].day && periods[i + 1].index == periods[i].index + 1
    && periods[i].id !in unavailable && periods[i + 1].id !in unavailable
  }

  /** First positions of pairs, no two of which share a period. */
  ghost predicate DisjointPairs(periods: seq<Period>, unavailable: set<Id>, starts: set<nat>) {
    && (forall i | i in starts :: Pairable(periods, i, unavailable))
    && forall i, j | i in starts && j in starts && i < j :: i + 2 <= j
  }

  /** `count` disjoint pairs exist, and no more. */
  ghost predicate IsMostPairs(periods: seq<Period>, unavailable: set<Id>, count: nat) {
    && (exists starts: set<nat> :: DisjointPairs(periods, unavailable, starts) && |starts| == count)
    && forall starts: set<nat> | DisjointPairs(periods, unavailable, starts) :: |starts| <= count
  }

  /** The pairs a scan from position `i` takes. */
  function Greedy(periods: seq<Period>, i: nat, unavailable: set<Id>): (starts: seq<nat>)
    decreases |periods| - i
  {
    if i + 1 >= |periods| then []
    else if Pairable(periods, i, unavailable) then [i] + Greedy(periods, i + 2, unavailable)
    else Greedy(periods, i + 1, unavailable)
  }

  /** The positions of a scan: in ascending order, two apart, each the start of a pair. */
  ghost predicate Spaced(periods: seq<Period>, unavailable: set<Id>, g: seq<nat>, from: nat) {
    && (forall k | 0 <= k < |g| :: from <= g[k] && Pairable(periods, g[k], unavailable))
    && forall k, l | 0 <= k < l < |g| :: g[k] + 2 <= g[l]
  }

  lemma {:induction false} GreedySpaced(periods: seq<Period>, i: nat, unavailable: set<Id>)
    ensures Spaced(periods, unavailable, Greedy(periods, i, unavailable), i)
    decreases |periods| - i
  {
    if i + 1 < |periods| {
      if Pairable(periods, i, unavailable) {
        GreedySpaced(periods, i + 2, unavailable);
        var rest := Greedy(periods, i + 2, unavailable);
        var g := [i] + rest;
        assert forall k | 1 <= k < |g| :: g[k] == rest[k - 1];
      } else {
        GreedySpaced(periods, i + 1, unavailable);
      }
    }
  }

  /** Taking a pair as soon as it appears loses nothing. */
  lemma {:induction false} GreedyBest(periods: seq<Period>, i: nat, unavailable: set<Id>, starts: set<nat>)
    requires DisjointPairs(periods, unavailable, starts) && forall s | s in starts :: s >= i
    ensures |starts| <= |Greedy(periods, i, unavailable)|
    decreases |periods| - i
  {
    if i + 1 >= |periods| {
      assert starts == {};
    } else if Pairable(periods, i, unavailable) {
      var first := if i in starts then i else i + 1;
      var rest := starts - {first};
      forall s | s in rest
        ensures s >= i + 2
      {
        assert s in starts;
      }
      GreedyBest(periods, i + 2, unavailable, rest);
      RemoveSize(starts, first);
    } else {
      forall s | s in starts ensures s >= i + 1 {
        assert Pairable(periods, s, unavailable);
      }
      GreedyBest(periods, i + 1, unavailable, starts);
    }
  }

  lemma RemoveSize(s: set<nat>, x: nat)
    ensures |s| <= |s - {x}| + 1
  {
    if x in s {
      assert s == (s - {x}) + {x};
    } else {
      assert s == s - {x};
    }
  }

  lemma GreedyIsMost(periods: seq<Period>, unavailable: set<Id>)
    ensures IsMostPairs(periods, unavailable, |Greedy(periods, 0, unavailable)|)
  {
    var g := Greedy(periods, 0, unavailable);
    GreedySpaced(periods, 0, unavailable);
    SpacedStarts(periods, unavailable, g);
    forall other: set<nat> | DisjointPairs(periods, unavailable, other)
      ensures |other| <= |g|
    {
      GreedyBest(periods, 0, unavailable, other);
    }
  }

  lemma SpacedStarts(periods: seq<Period>, unavailable: set<Id>, g: seq<nat>)
    requires Spaced(periods, unavailable, g, 0)
    ensures exists starts: set<nat> :: DisjointPairs(periods, unavailable, starts) && |starts| == |g|
  {
    var starts := set x | x in g;
    DistinctSetSize(g, starts);
    forall i, j | i in starts && j in starts && i < j
      ensures i + 2 <= j
    {
      var k :| 0 <= k < |g| && g[k] == i;
      var l :| 0 <= l < |g| && g[l] == j;
      assert k < l || l < k;
    }
    assert DisjointPairs(periods, unavailable, starts);
  }

  /** The greedy scan finds as many disjoint adjacent pairs as there can be. */
  method AdjacentCapacity(periods: seq<Period>, unavailable: set<Id>) returns (count: nat)
    ensures count == |Greedy(periods, 0, unavailable)| && IsMostPairs(periods, unavailable, count)
  {
    count := 0;
    var i := 0;
    while i + 1 < |periods|
      invariant count + |Greedy(periods, i, unavailable)| == |Greedy(periods, 0, unavailable)|
    {
      if Pairable(periods, i, unavailable) {
        count, i := count + 1, i + 2;
      } else {
        i := i + 1;
      }
    }
    GreedyIsMost(periods, unavailable);
  }

  /** The pairs the solver works with, by their first position. */
  method AdjacentPairs(periods: seq<Period>) returns (starts: seq<nat>)
    ensures starts == Greedy(periods, 0, {})
  {
    starts := [];
    var i := 0;
    while i + 1 < |periods|
      invariant starts + Greedy(periods, i, {}) == Greedy(periods, 0, {})
    {
      if Pairable(periods, i, {}) {
        assert starts + Greedy(periods, i, {}) == (starts + [i]) + Greedy(periods, i + 2, {});
        starts, i := starts + [i], i + 2;
      } else {
        i := i + 1;
      }
    }
  }
}

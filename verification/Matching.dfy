/** Kuhn's augmenting search, which the solver and the preflight run in three places: one colour of the
    edge colouring, the teacher-to-cohort matching of one period, and the simultaneous-coverage count.
    The three closures differ only in whether a right vertex remembers the edge, the edge's position or
    the edge's left end; here it remembers the edge's position. */
module Matching {

  /** An edge of a bipartite multigraph, labelled with the assignment it stands for (0 for none). */
  datatype Edge = Edge(left: nat, right: nat, assignment: nat)

  /** left vertex -> positions of its usable edges, in the order the search tries them */
  type Adjacency = map<nat, seq<nat>>

  /** right vertex -> position of the edge that covers it */
  type Mates = map<nat, nat>

  ghost predicate Listed(edges: seq<Edge>, adjacency: Adjacency) {
    forall l | l in adjacency :: forall e | e in adjacency[l] :: e < |edges| && edges[e].left == l
  }

  ghost function Rights(edges: seq<Edge>): set<nat> {
    set i | 0 <= i < |edges| :: edges[i].right
  }

  /** `e` is an edge the search may use. */
  ghost predicate Usable(edges: seq<Edge>, adjacency: Adjacency, e: nat) {
    e < |edges| && edges[e].left in adjacency && e in adjacency[edges[e].left]
  }

  /** Every edge from `l` that the search may use ends in `rights`. */
  ghost predicate Confined(edges: seq<Edge>, adjacency: Adjacency, l: nat, rights: set<nat>) {
    l in adjacency ==> forall e | e in adjacency[l] :: e < |edges| ==> edges[e].right in rights
  }

  ghost predicate Drawn(edges: seq<Edge>, adjacency: Adjacency, mate: Mates) {
    forall r | r in mate :: Usable(edges, adjacency, mate[r]) && edges[mate[r]].right == r
  }

  ghost predicate Disjoint(edges: seq<Edge>, mate: Mates)
    requires forall r | r in mate :: mate[r] < |edges|
  {
    forall r, s | r in mate && s in mate && r != s :: edges[mate[r]].left != edges[mate[s]].left
  }

  /** A matching of usable edges: no two of them share a right vertex (the keys) or a left vertex. */
  ghost predicate IsMatching(edges: seq<Edge>, adjacency: Adjacency, mate: Mates) {
    Drawn(edges, adjacency, mate) && Disjoint(edges, mate)
  }

  /** `mate` covers the left vertex `l`. */
  ghost predicate Covers(edges: seq<Edge>, mate: Mates, l: nat) {
    exists r | r in mate :: mate[r] < |edges| && edges[mate[r]].left == l
  }

  /** A set of covered right vertices that no search can leave again: half of a vertex cover. */
  ghost predicate Dead(edges: seq<Edge>, adjacency: Adjacency, mate: Mates, dead: set<nat>)
    requires forall r | r in mate :: mate[r] < |edges|
  {
    forall r | r in dead :: r in mate && Confined(edges, adjacency, edges[mate[r]].left, dead)
  }

  /** `after` covers one right vertex more than `before`, one of the touched ones. */
  ghost predicate Grown(before: Mates, after: Mates, touched: set<nat>) {
    && (exists extra | extra in touched && extra !in before :: after.Keys == before.Keys + {extra})
    && (forall r | r in before && r !in touched :: after[r] == before[r])
  }

  /** Every touched vertex is held by `left` or by the former holder of a touched vertex. */
  ghost predicate Rehoused(edges: seq<Edge>, before: Mates, after: Mates, left: nat, touched: set<nat>)
    requires forall r | r in before :: before[r] < |edges|
    requires forall r | r in after :: after[r] < |edges|
  {
    && (exists r | r in touched && r in after :: edges[after[r]].left == left)
    && (forall r | r in touched && r in after ::
          edges[after[r]].left == left || exists s | s in touched && s in before :: edges[before[s]].left == edges[after[r]].left)
  }

  /** No left vertex holds two right vertices, except that `left` may still hold an untouched one. */
  ghost predicate DisjointBut(edges: seq<Edge>, after: Mates, left: nat, touched: set<nat>)
    requires forall r | r in after :: after[r] < |edges|
  {
    forall r, s | r in after && s in after && r != s && edges[after[r]].left == edges[after[s]].left ::
      edges[after[r]].left == left && (r !in touched || s !in touched)
  }

  /** The effect of a successful search for `left` that marked the vertices in `touched`. */
  ghost predicate Augmented(edges: seq<Edge>, adjacency: Adjacency, before: Mates, after: Mates, left: nat, touched: set<nat>) {
    && Drawn(edges, adjacency, before)
    && Drawn(edges, adjacency, after)
    && Grown(before, after, touched)
    && (forall l :: Covers(edges, after, l) <==> l == left || Covers(edges, before, l))
    && Rehoused(edges, before, after, left, touched)
    && DisjointBut(edges, after, left, touched)
  }

  class Matcher {
    const edges: seq<Edge>
    const adjacency: Adjacency
    var mate: Mates
    var seen: set<nat>

    constructor (edges: seq<Edge>, adjacency: Adjacency)
      requires Listed(edges, adjacency)
      ensures this.edges == edges && this.adjacency == adjacency && mate == map[] && seen == {}
      ensures Valid()
    {
      this.edges := edges;
      this.adjacency := adjacency;
      mate := map[];
      seen := {};
    }

    ghost predicate Valid()
      reads this
    {
      Listed(edges, adjacency) && IsMatching(edges, adjacency, mate) && seen <= Rights(edges)
    }

    /** Tries to cover `left`, moving already covered vertices out of the way.  Success adds `left` to the
        covered vertices; failure changes nothing and leaves in `seen` a closed set of covered vertices.
        No search gets out of a dead set, so a left vertex confined to one cannot be covered. */
    method Visit(left: nat, ghost dead: set<nat>) returns (found: bool)
      requires Valid() && Dead(edges, adjacency, mate, dead)
      requires forall r | r in mate && edges[mate[r]].left == left :: r in seen
      modifies `mate, `seen
      decreases Rights(edges) - seen, 1
      ensures old(seen) <= seen <= Rights(edges)
      ensures found ==> Augmented(edges, adjacency, old(mate), mate, left, seen - old(seen))
      ensures found ==> Kept(old(mate), mate, dead)
      ensures !found ==> mate == old(mate) && Confined(edges, adjacency, left, seen) && Exhausted(edges, adjacency, mate, seen - old(seen), seen)
      ensures Confined(edges, adjacency, left, dead) ==> !found
    {
      if left !in adjacency {
        return false;
      }
      var order := adjacency[left];
      assert forall j | 0 <= j < |order| :: order[j] in adjacency[left];
      for k := 0 to |order|
        invariant mate == old(mate) && old(seen) <= seen <= Rights(edges)
        invariant forall j | 0 <= j < k :: edges[order[j]].right in seen
        invariant Exhausted(edges, adjacency, mate, seen - old(seen), seen)
      {
        if edges[order[k]].right !in seen {
          found := Claim(order[k], old(seen), dead);
          if found {
            return true;
          }
        }
      }
      return false;
    }

    /** The body of the search loop: mark the right end of `edge` and take it if it is free or its holder
        can find another vertex.  `start` is what was marked when the search for the left end began. */
    method Claim(edge: nat, ghost start: set<nat>, ghost dead: set<nat>) returns (found: bool)
      requires Valid() && Dead(edges, adjacency, mate, dead)
      requires Usable(edges, adjacency, edge) && edges[edge].right !in seen
      requires start <= seen && Exhausted(edges, adjacency, mate, seen - start, seen)
      requires forall r | r in mate && edges[mate[r]].left == edges[edge].left :: r in start
      modifies `mate, `seen
      decreases Rights(edges) - seen, 0
      ensures old(seen) + {edges[edge].right} <= seen <= Rights(edges)
      ensures found ==> Augmented(edges, adjacency, old(mate), mate, edges[edge].left, seen - start)
      ensures found ==> Kept(old(mate), mate, dead)
      ensures !found ==> mate == old(mate) && Exhausted(edges, adjacency, mate, seen - start, seen)
      ensures edges[edge].right in dead ==> !found
    {
      hide Augmented, Grown, Rehoused, DisjointBut, Covers;
      var right := edges[edge].right;
      seen := seen + {right};
      if right !in mate {
        TakeFree(edges, adjacency, mate, edges[edge].left, edge, start, seen);
        assert right !in dead;
        mate := mate[right := edge];
        return true;
      }
      ghost var entry := seen;
      found := Visit(edges[mate[right]].left, dead);
      if found {
        assert right !in dead;
        SwapIn(edges, adjacency, old(mate), mate, edges[edge].left, edge, start, seen - entry, seen - start);
        mate := mate[right := edge];
      } else {
        ExhaustedGrown(edges, adjacency, mate, start, old(seen), right, seen);
      }
    }

    /** One search for each left vertex of `order`.  A vertex that fails stays uncoverable: the ghost results
        are the failed vertices and the dead set that confines every one of them. */
    method CoverAll(order: seq<nat>) returns (ghost failed: set<nat>, ghost dead: set<nat>)
      requires Valid() && mate == map[]
      requires forall i, j | 0 <= i < j < |order| :: order[i] != order[j]
      modifies `mate, `seen
      ensures Valid() && Dead(edges, adjacency, mate, dead)
      ensures forall l | l in failed :: Confined(edges, adjacency, l, dead)
      ensures forall l :: Covers(edges, mate, l) <==> l in order && l !in failed
      ensures forall l | l in failed :: l in order
    {
      failed, dead := {}, {};
      hide Augmented;
      for k := 0 to |order|
        invariant Valid() && Progress(edges, adjacency, mate, order[..k], failed, dead)
      {
        ghost var before := mate;
        assert order[..k + 1] == order[..k] + [order[k]];
        assert !Covers(edges, mate, order[k]);
        seen := {};
        var found := Visit(order[k], dead);
        assert seen - {} == seen;
        if found {
          Succeeded(edges, adjacency, before, mate, order[..k], failed, dead, order[k], seen);
        } else {
          Failed(edges, adjacency, mate, order[..k], failed, dead, order[k], seen);
          failed, dead := failed + {order[k]}, dead + seen;
        }
      }
      assert order[..|order|] == order;
    }
  }

  ghost predicate Kept(before: Mates, after: Mates, vertices: set<nat>) {
    forall r | r in vertices :: r in before && r in after && after[r] == before[r]
  }

  /** What a failed search leaves behind: everything in `marked` is covered and leads back into `seen`. */
  ghost predicate Exhausted(edges: seq<Edge>, adjacency: Adjacency, mate: Mates, marked: set<nat>, seen: set<nat>) {
    forall r | r in marked :: r in mate && mate[r] < |edges| && Confined(edges, adjacency, edges[mate[r]].left, seen)
  }

  lemma ExhaustedGrown(edges: seq<Edge>, adjacency: Adjacency, mate: Mates, start: set<nat>, before: set<nat>, right: nat, after: set<nat>)
    requires start <= before && before + {right} <= after && right in mate && mate[right] < |edges|
    requires Exhausted(edges, adjacency, mate, before - start, before)
    requires Exhausted(edges, adjacency, mate, after - (before + {right}), after)
    requires Confined(edges, adjacency, edges[mate[right]].left, after)
    ensures Exhausted(edges, adjacency, mate, after - start, after)
  {
    forall r | r in after - start
      ensures r in mate && mate[r] < |edges| && Confined(edges, adjacency, edges[mate[r]].left, after)
    {
      if r in before {
        assert Confined(edges, adjacency, edges[mate[r]].left, before);
      } else if r != right {
        assert r in after - (before + {right});
      }
    }
  }

  /** After the searches for `tried`: all are covered but the failed ones, which a dead set confines. */
  ghost predicate Progress(edges: seq<Edge>, adjacency: Adjacency, mate: Mates, tried: seq<nat>, failed: set<nat>, dead: set<nat>) {
    && IsMatching(edges, adjacency, mate)
    && Dead(edges, adjacency, mate, dead)
    && (forall l | l in failed :: l in tried && Confined(edges, adjacency, l, dead))
    && (forall l :: Covers(edges, mate, l) <==> l in tried && l !in failed)
  }

  lemma Succeeded(edges: seq<Edge>, adjacency: Adjacency, before: Mates, after: Mates, tried: seq<nat>, failed: set<nat>, dead: set<nat>,
                  left: nat, seen: set<nat>)
    requires Progress(edges, adjacency, before, tried, failed, dead) && left !in tried
    requires Augmented(edges, adjacency, before, after, left, seen)
    requires Kept(before, after, dead)
    ensures Progress(edges, adjacency, after, tried + [left], failed, dead)
  {
    AugmentedIsMatching(edges, adjacency, before, after, left, seen);
    DeadKept(edges, adjacency, before, after, dead);
  }

  lemma Failed(edges: seq<Edge>, adjacency: Adjacency, mate: Mates, tried: seq<nat>, failed: set<nat>, dead: set<nat>, left: nat, seen: set<nat>)
    requires Progress(edges, adjacency, mate, tried, failed, dead) && left !in tried
    requires Confined(edges, adjacency, left, seen) && Exhausted(edges, adjacency, mate, seen, seen)
    ensures Progress(edges, adjacency, mate, tried + [left], failed + {left}, dead + seen)
  {
    DeadGrown(edges, adjacency, mate, dead, failed, left, seen);
  }

  /** A free right vertex can take `edge` at once. */
  lemma TakeFree(edges: seq<Edge>, adjacency: Adjacency, before: Mates, left: nat, edge: nat, start: set<nat>, after: set<nat>)
    requires IsMatching(edges, adjacency, before)
    requires forall r | r in before && edges[before[r]].left == left :: r in start
    requires Usable(edges, adjacency, edge) && edges[edge].left == left
    requires edges[edge].right !in before && edges[edge].right in after - start
    requires forall r | r in after - start && r != edges[edge].right :: r in before
    ensures Augmented(edges, adjacency, before, before[edges[edge].right := edge], left, after - start)
  {
    var right := edges[edge].right;
    var final := before[right := edge];
    assert final.Keys == before.Keys + {right};
    forall l
      ensures Covers(edges, final, l) <==> l == left || Covers(edges, before, l)
    {
      assert final[right] == edge;
      if Covers(edges, before, l) {
        var r :| r in before && edges[before[r]].left == l;
        assert final[r] == before[r];
      }
    }
    assert edges[final[right]].left == left;
  }

  /** What the exchange in `SwapIn` starts from: the holder of `edges[edge].right` has found another vertex. */
  ghost predicate Exchange(edges: seq<Edge>, adjacency: Adjacency, before: Mates, middle: Mates, left: nat, edge: nat,
                           start: set<nat>, inner: set<nat>) {
    && IsMatching(edges, adjacency, before)
    && (forall r | r in before && edges[before[r]].left == left :: r in start)
    && Usable(edges, adjacency, edge) && edges[edge].left == left
    && edges[edge].right in before && edges[edge].right !in start && edges[edge].right !in inner && start !! inner
    && Augmented(edges, adjacency, before, middle, edges[before[edges[edge].right]].left, inner)
  }

  lemma InnerAvoidsLeft(edges: seq<Edge>, adjacency: Adjacency, before: Mates, middle: Mates, left: nat, edge: nat,
                        start: set<nat>, inner: set<nat>)
    requires Exchange(edges, adjacency, before, middle, left, edge, start, inner)
    ensures edges[before[edges[edge].right]].left != left
    ensures forall r | r in inner && r in middle :: edges[middle[r]].left != left
    ensures forall r | r in middle && r !in inner :: r in before && middle[r] == before[r]
    ensures edges[edge].right in middle
  {
    var previous := edges[before[edges[edge].right]].left;
    assert previous != left;
    forall r | r in inner && r in middle
      ensures edges[middle[r]].left != left
    {
      if edges[middle[r]].left != previous {
        var s :| s in inner && s in before && edges[before[s]].left == edges[middle[r]].left;
      }
    }
  }

  lemma SwapCovers(edges: seq<Edge>, adjacency: Adjacency, before: Mates, middle: Mates, left: nat, edge: nat,
                   start: set<nat>, inner: set<nat>, l: nat)
    requires Exchange(edges, adjacency, before, middle, left, edge, start, inner)
    ensures Covers(edges, middle[edges[edge].right := edge], l) <==> l == left || Covers(edges, before, l)
  {
    InnerAvoidsLeft(edges, adjacency, before, middle, left, edge, start, inner);
    var right := edges[edge].right;
    var final := middle[right := edge];
    if l == left {
      assert final[right] == edge;
    } else if Covers(edges, before, l) {
      assert Covers(edges, middle, l);
      var r :| r in middle && edges[middle[r]].left == l;
      if r == right {
        var again :| again in inner && again in middle && edges[middle[again]].left == edges[before[right]].left;
        assert final[again] == middle[again];
      } else {
        assert final[r] == middle[r];
      }
    }
  }

  lemma SwapDisjoint(edges: seq<Edge>, adjacency: Adjacency, before: Mates, middle: Mates, left: nat, edge: nat,
                     start: set<nat>, inner: set<nat>, touched: set<nat>)
    requires Exchange(edges, adjacency, before, middle, left, edge, start, inner)
    requires touched !! start && Drawn(edges, adjacency, middle[edges[edge].right := edge])
    ensures DisjointBut(edges, middle[edges[edge].right := edge], left, touched)
  {
    InnerAvoidsLeft(edges, adjacency, before, middle, left, edge, start, inner);
    var right := edges[edge].right;
    var final := middle[right := edge];
    forall r, s | r in final && s in final && r != s && edges[final[r]].left == edges[final[s]].left
      ensures edges[final[r]].left == left && (r !in touched || s !in touched)
    {
      if r == right {
        assert final[s] == middle[s] && edges[middle[s]].left == left && s !in inner;
      } else if s == right {
        assert final[r] == middle[r] && edges[middle[r]].left == left && r !in inner;
      } else {
        assert false;
      }
    }
  }

  lemma SwapDrawn(edges: seq<Edge>, adjacency: Adjacency, before: Mates, middle: Mates, left: nat, edge: nat,
                  start: set<nat>, inner: set<nat>, touched: set<nat>)
    requires Exchange(edges, adjacency, before, middle, left, edge, start, inner)
    requires inner + {edges[edge].right} <= touched
    ensures Drawn(edges, adjacency, middle[edges[edge].right := edge])
    ensures Grown(before, middle[edges[edge].right := edge], touched)
  {
    InnerAvoidsLeft(edges, adjacency, before, middle, left, edge, start, inner);
    var right := edges[edge].right;
    var final := middle[right := edge];
    var extra :| extra in inner && extra !in before && middle.Keys == before.Keys + {extra};
    assert extra in touched && final.Keys == before.Keys + {extra};
  }

  lemma SwapRehoused(edges: seq<Edge>, adjacency: Adjacency, before: Mates, middle: Mates, left: nat, edge: nat,
                     start: set<nat>, inner: set<nat>, touched: set<nat>)
    requires Exchange(edges, adjacency, before, middle, left, edge, start, inner)
    requires inner + {edges[edge].right} <= touched
    ensures Rehoused(edges, before, middle[edges[edge].right := edge], left, touched)
  {
    InnerAvoidsLeft(edges, adjacency, before, middle, left, edge, start, inner);
    var right := edges[edge].right;
    var final := middle[right := edge];
    assert edges[final[right]].left == left;
    forall r | r in touched && r in final && r != right
      ensures exists s | s in touched && s in before :: edges[before[s]].left == edges[final[r]].left
    {
      assert final[r] == middle[r];
      if r !in inner {
        assert edges[before[r]].left == edges[final[r]].left;
      } else if edges[middle[r]].left != edges[before[right]].left {
        var s :| s in inner && s in before && edges[before[s]].left == edges[middle[r]].left;
      }
    }
  }

  /** After the holder of `edges[edge].right` has found another vertex, that vertex can take `edge`. */
  lemma SwapIn(edges: seq<Edge>, adjacency: Adjacency, before: Mates, middle: Mates, left: nat, edge: nat,
               start: set<nat>, inner: set<nat>, touched: set<nat>)
    requires Exchange(edges, adjacency, before, middle, left, edge, start, inner)
    requires touched !! start && inner + {edges[edge].right} <= touched
    ensures Augmented(edges, adjacency, before, middle[edges[edge].right := edge], left, touched)
  {
    var final := middle[edges[edge].right := edge];
    SwapDrawn(edges, adjacency, before, middle, left, edge, start, inner, touched);
    SwapRehoused(edges, adjacency, before, middle, left, edge, start, inner, touched);
    SwapDisjoint(edges, adjacency, before, middle, left, edge, start, inner, touched);
    forall l ensures Covers(edges, final, l) <==> l == left || Covers(edges, before, l) {
      SwapCovers(edges, adjacency, before, middle, left, edge, start, inner, l);
    }
  }

  /** A search for an uncovered vertex that starts with no marks ends in a matching. */
  lemma AugmentedIsMatching(edges: seq<Edge>, adjacency: Adjacency, before: Mates, after: Mates, left: nat, touched: set<nat>)
    requires IsMatching(edges, adjacency, before) && Augmented(edges, adjacency, before, after, left, touched)
    requires !Covers(edges, before, left)
    ensures IsMatching(edges, adjacency, after)
  {
    forall r, s | r in after && s in after && r != s
      ensures edges[after[r]].left != edges[after[s]].left
    {
      assert r !in touched ==> r in before && edges[after[r]].left == edges[before[r]].left != left;
      assert s !in touched ==> s in before && edges[after[s]].left == edges[before[s]].left != left;
    }
  }

  lemma DeadKept(edges: seq<Edge>, adjacency: Adjacency, before: Mates, after: Mates, dead: set<nat>)
    requires Drawn(edges, adjacency, before) && Drawn(edges, adjacency, after) && Dead(edges, adjacency, before, dead)
    requires Kept(before, after, dead)
    ensures Dead(edges, adjacency, after, dead)
  {
  }

  lemma DeadGrown(edges: seq<Edge>, adjacency: Adjacency, mate: Mates, dead: set<nat>, failed: set<nat>, left: nat, seen: set<nat>)
    requires Drawn(edges, adjacency, mate) && Dead(edges, adjacency, mate, dead)
    requires forall l | l in failed :: Confined(edges, adjacency, l, dead)
    requires Confined(edges, adjacency, left, seen) && Exhausted(edges, adjacency, mate, seen, seen)
    ensures Dead(edges, adjacency, mate, dead + seen)
    ensures forall l | l in failed + {left} :: Confined(edges, adjacency, l, dead + seen)
  {
  }

  // ----- maximality

  ghost function Holding(edges: seq<Edge>, mate: Mates, l: nat): (r: nat)
    requires Covers(edges, mate, l)
    ensures r in mate && mate[r] < |edges| && edges[mate[r]].left == l
  {
    var r :| r in mate && mate[r] < |edges| && edges[mate[r]].left == l;
    r
  }

  lemma {:induction false} InjectionSize(source: set<nat>, target: set<nat>, h: map<nat, nat>)
    requires source <= h.Keys
    requires forall x | x in source :: h[x] in target
    requires forall x, y | x in source && y in source && x != y :: h[x] != h[y]
    ensures |source| <= |target|
  {
    if source != {} {
      var x :| x in source;
      InjectionSize(source - {x}, target - {h[x]}, h);
    }
  }

  /** Koenig's certificate: when every left vertex is covered or confined to a dead set, no matching of the
      usable edges is larger. */
  lemma MaximumCardinality(edges: seq<Edge>, adjacency: Adjacency, mate: Mates, dead: set<nat>, other: Mates)
    requires Listed(edges, adjacency) && IsMatching(edges, adjacency, mate) && IsMatching(edges, adjacency, other)
    requires Dead(edges, adjacency, mate, dead)
    requires forall l | l in adjacency :: Covers(edges, mate, l) || Confined(edges, adjacency, l, dead)
    ensures |other| <= |mate|
  {
    OutsideSize(edges, adjacency, mate, dead, other);
    assert dead <= mate.Keys;
    SplitSize(other.Keys, dead);
    SplitSize(mate.Keys, dead);
  }

  lemma OutsideSize(edges: seq<Edge>, adjacency: Adjacency, mate: Mates, dead: set<nat>, other: Mates)
    requires IsMatching(edges, adjacency, mate) && IsMatching(edges, adjacency, other)
    requires Dead(edges, adjacency, mate, dead)
    requires forall l | l in adjacency :: Covers(edges, mate, l) || Confined(edges, adjacency, l, dead)
    ensures |other.Keys - dead| <= |mate.Keys - dead|
  {
    var outside := other.Keys - dead;
    forall r | r in outside
      ensures Covers(edges, mate, edges[other[r]].left) && Holding(edges, mate, edges[other[r]].left) in mate.Keys - dead
    {
      OutsideIsHeld(edges, adjacency, mate, dead, other, r);
    }
    var h := map r | r in outside :: Holding(edges, mate, edges[other[r]].left);
    assert forall r | r in outside :: edges[mate[h[r]]].left == edges[other[r]].left;
    InjectionSize(outside, mate.Keys - dead, h);
  }

  lemma OutsideIsHeld(edges: seq<Edge>, adjacency: Adjacency, mate: Mates, dead: set<nat>, other: Mates, r: nat)
    requires Drawn(edges, adjacency, mate) && Drawn(edges, adjacency, other)
    requires Dead(edges, adjacency, mate, dead)
    requires forall l | l in adjacency :: Covers(edges, mate, l) || Confined(edges, adjacency, l, dead)
    requires r in other && r !in dead
    ensures Covers(edges, mate, edges[other[r]].left) && Holding(edges, mate, edges[other[r]].left) !in dead
  {
    assert !Confined(edges, adjacency, edges[other[r]].left, dead);
  }

  lemma SplitSize(a: set<nat>, b: set<nat>)
    ensures |a| == |a - b| + |a * b|
    ensures |a * b| <= |b|
    ensures b <= a ==> a * b == b
  {
    assert a == (a - b) + a * b;
    assert b == (b - a) + a * b;
  }
}

/** Koenig's theorem as code (`exactBipartiteColors`): pad the teacher/cohort multigraph to a regular one, then
    take away one perfect matching per colour. */
module EdgeColoring {
  import opened Model
  import opened Matching

  datatype Mode = Singles | Doubles | PairedDemand

  /** How many edges an assignment contributes. */
  function Units(a: Assignment, mode: Mode): int {
    match mode
    case Singles => a.weekly - a.doubles * 2
    case Doubles => a.doubles
    case PairedDemand => a.weekly / 2
  }

  /** The units of the assignments of `list` that end in `key`. */
  ghost function Load(list: seq<Assignment>, side: Side, key: Id, mode: Mode): int {
    if list == [] then 0
    else
      var a := list[|list| - 1];
      Load(list[..|list| - 1], side, key, mode) + if End(side, a) == key then Units(a, mode) else 0
  }

  ghost function Occurrences(colors: seq<seq<Id>>, id: Id): nat {
    if colors == [] then 0
    else Occurrences(colors[..|colors| - 1], id) + multiset(colors[|colors| - 1])[id]
  }

  // ----- edge sets

  function EdgeEnd(side: Side, e: Edge): nat {
    if side.TeacherSide? then e.left else e.right
  }

  /** The numbers below `n`. */
  function Below(n: nat): (r: set<nat>)
    ensures forall v: nat :: v in r <==> v < n
    ensures |r| == n
  {
    if n == 0 then {} else Below(n - 1) + {n - 1}
  }

  ghost function All(edges: seq<Edge>): set<nat> {
    set i: nat {:trigger edges[i]} | i < |edges|
  }

  /** The live edges at vertex `v`. */
  ghost function At(edges: seq<Edge>, live: set<nat>, side: Side, v: nat): set<nat> {
    set i | i in live && i < |edges| && EdgeEnd(side, edges[i]) == v
  }

  /** The live edges at a vertex of `vs`. */
  ghost function Touching(edges: seq<Edge>, live: set<nat>, side: Side, vs: set<nat>): set<nat> {
    set i | i in live && i < |edges| && EdgeEnd(side, edges[i]) in vs
  }

  /** The live edges that stand for assignment `id`. */
  ghost function Of(edges: seq<Edge>, live: set<nat>, id: Id): set<nat> {
    set i | i in live && i < |edges| && edges[i].assignment == id
  }

  ghost predicate Within(edges: seq<Edge>, n: nat) {
    forall e | e in edges :: e.left < n && e.right < n
  }

  /** Every vertex has exactly `k` live edges. */
  ghost predicate Regular(edges: seq<Edge>, live: set<nat>, n: nat, k: nat) {
    && Within(edges, n)
    && live <= All(edges)
    && forall side: Side, v: nat | v < n :: |At(edges, live, side, v)| == k
  }

  lemma {:induction false} TouchingCount(edges: seq<Edge>, live: set<nat>, side: Side, vs: set<nat>, k: nat)
    requires forall v | v in vs :: |At(edges, live, side, v)| == k
    ensures |Touching(edges, live, side, vs)| == k * |vs|
  {
    if vs == {} {
      assert Touching(edges, live, side, vs) == {};
    } else {
      var v :| v in vs;
      TouchingCount(edges, live, side, vs - {v}, k);
      TouchingSplit(edges, live, side, vs, v);
    }
  }

  lemma {:induction false} TouchingBound(edges: seq<Edge>, live: set<nat>, side: Side, vs: set<nat>, k: nat)
    requires forall v | v in vs :: |At(edges, live, side, v)| <= k
    ensures |Touching(edges, live, side, vs)| <= k * |vs|
  {
    if vs == {} {
      assert Touching(edges, live, side, vs) == {};
    } else {
      var v :| v in vs;
      TouchingBound(edges, live, side, vs - {v}, k);
      TouchingSplit(edges, live, side, vs, v);
    }
  }

  lemma TouchingSplit(edges: seq<Edge>, live: set<nat>, side: Side, vs: set<nat>, v: nat)
    requires v in vs
    ensures |Touching(edges, live, side, vs)| == |Touching(edges, live, side, vs - {v})| + |At(edges, live, side, v)|
    ensures |vs| == |vs - {v}| + 1
  {
    assert Touching(edges, live, side, vs) == Touching(edges, live, side, vs - {v}) + At(edges, live, side, v);
  }

  /** When no vertex exceeds `delta` and all vertices of one side reach it, all vertices of the other do too. */
  lemma BalancedIsRegular(edges: seq<Edge>, n: nat, delta: nat, full: Side, other: Side)
    requires full != other && Within(edges, n)
    requires forall v: nat | v < n :: |At(edges, All(edges), full, v)| == delta
    requires forall v: nat | v < n :: |At(edges, All(edges), other, v)| <= delta
    ensures Regular(edges, All(edges), n, delta)
  {
    forall side: Side, v: nat | v < n
      ensures |At(edges, All(edges), side, v)| == delta
    {
      if side == other {
        BalancedVertex(edges, n, delta, full, other, v);
      }
    }
  }

  lemma BalancedVertex(edges: seq<Edge>, n: nat, delta: nat, full: Side, other: Side, v: nat)
    requires full != other && Within(edges, n) && v < n
    requires forall u: nat | u < n :: |At(edges, All(edges), full, u)| == delta
    requires forall u: nat | u < n :: |At(edges, All(edges), other, u)| <= delta
    ensures |At(edges, All(edges), other, v)| == delta
  {
    var live, rest := All(edges), Below(n) - {v};
    TouchingAll(edges, n, full);
    TouchingAll(edges, n, other);
    TouchingCount(edges, live, full, Below(n), delta);
    TouchingSplit(edges, live, other, Below(n), v);
    TouchingBound(edges, live, other, rest, delta);
    LastShare(delta, |Below(n)|, |rest|, |At(edges, live, other, v)|, |Touching(edges, live, other, rest)|);
  }

  lemma LastShare(delta: nat, n: nat, m: nat, share: nat, others: nat)
    requires n == m + 1 && share <= delta && others <= delta * m && others + share == delta * n
    ensures share == delta
  {
    assert delta * n == delta * m + delta;
  }

  lemma TouchingAll(edges: seq<Edge>, n: nat, side: Side)
    requires Within(edges, n)
    ensures Touching(edges, All(edges), side, Below(n)) == All(edges)
  {
    forall i | i in All(edges)
      ensures EdgeEnd(side, edges[i]) in Below(n)
    {
      assert edges[i] in edges;
    }
  }

  /** Appending an edge adds it to exactly the sets of its two ends and of its assignment. */
  lemma AppendAt(edges: seq<Edge>, e: Edge, side: Side, v: nat)
    ensures |At(edges + [e], All(edges + [e]), side, v)| == |At(edges, All(edges), side, v)| + if EdgeEnd(side, e) == v then 1 else 0
  {
    var before, after := At(edges, All(edges), side, v), At(edges + [e], All(edges + [e]), side, v);
    if EdgeEnd(side, e) == v {
      assert after == before + {|edges|};
    } else {
      assert after == before;
    }
  }

  lemma AppendOf(edges: seq<Edge>, e: Edge, id: Id)
    ensures |Of(edges + [e], All(edges + [e]), id)| == |Of(edges, All(edges), id)| + if e.assignment == id then 1 else 0
  {
    var before, after := Of(edges, All(edges), id), Of(edges + [e], All(edges + [e]), id);
    if e.assignment == id {
      assert after == before + {|edges|};
    } else {
      assert after == before;
    }
  }

  lemma {:induction false} AppendEdge(edges: seq<Edge>, e: Edge)
    ensures forall side: Side, v: nat :: |At(edges + [e], All(edges + [e]), side, v)|
                                   == |At(edges, All(edges), side, v)| + if EdgeEnd(side, e) == v then 1 else 0
    ensures forall id: Id :: |Of(edges + [e], All(edges + [e]), id)|
                       == |Of(edges, All(edges), id)| + if e.assignment == id then 1 else 0
  {
    forall side: Side, v: nat
      ensures |At(edges + [e], All(edges + [e]), side, v)|
           == |At(edges, All(edges), side, v)| + if EdgeEnd(side, e) == v then 1 else 0
    {
      AppendAt(edges, e, side, v);
    }
    forall id: Id
      ensures |Of(edges + [e], All(edges + [e]), id)| == |Of(edges, All(edges), id)| + if e.assignment == id then 1 else 0
    {
      AppendOf(edges, e, id);
    }
  }

  // ----- one colour: a perfect matching of a regular multigraph

  ghost function Alive(flags: seq<bool>): (r: set<nat>)
    ensures forall i: nat :: i in r <==> i < |flags| && flags[i]
  {
    set i: nat | i < |flags| && flags[i]
  }

  /** `adjacency` lists, for each left vertex, exactly its live edges. */
  ghost predicate ListsLive(edges: seq<Edge>, live: set<nat>, n: nat, adjacency: Adjacency) {
    && adjacency.Keys == Below(n)
    && forall l: nat, i: nat | l < n :: i in adjacency[l] <==> i in At(edges, live, TeacherSide, l)
  }

  /** The live edges of each left vertex, each list in random order. */
  method ActiveAdjacency(edges: seq<Edge>, active: array<bool>, n: nat) returns (adjacency: Adjacency)
    requires active.Length == |edges| && Within(edges, n)
    ensures ListsLive(edges, Alive(active[..]), n, adjacency)
  {
    adjacency := map l | l in Below(n) :: [];
    assert ListsLive(edges, Alive(active[..0]), n, adjacency);
    hide ListsLive;
    for i := 0 to |edges|
      invariant ListsLive(edges, Alive(active[..i]), n, adjacency)
    {
      if active[i] {
        assert Alive(active[..i + 1]) == Alive(active[..i]) + {i};
        assert edges[i] in edges;
        ListOne(edges, Alive(active[..i]), n, adjacency, i);
        adjacency := adjacency[edges[i].left := adjacency[edges[i].left] + [i]];
      } else {
        assert Alive(active[..i + 1]) == Alive(active[..i]);
      }
    }
    assert active[..|edges|] == active[..];
    ghost var live := Alive(active[..]);
    for l := 0 to n
      invariant ListsLive(edges, live, n, adjacency)
    {
      var shuffled := Shuffle(adjacency[l]);
      SameElements(shuffled, adjacency[l]);
      adjacency := adjacency[l := shuffled];
    }
  }

  lemma ListOne(edges: seq<Edge>, live: set<nat>, n: nat, adjacency: Adjacency, i: nat)
    requires ListsLive(edges, live, n, adjacency) && i < |edges| && edges[i].left < n
    ensures ListsLive(edges, live + {i}, n, adjacency[edges[i].left := adjacency[edges[i].left] + [i]])
  {
    var left := edges[i].left;
    forall l: nat, j: nat | l < n
      ensures j in adjacency[left := adjacency[left] + [i]][l] <==> j in At(edges, live + {i}, TeacherSide, l)
    {
      assert j in adjacency[l] <==> j in At(edges, live, TeacherSide, l);
    }
  }

  lemma LiveIsListed(edges: seq<Edge>, live: set<nat>, n: nat, adjacency: Adjacency)
    requires ListsLive(edges, live, n, adjacency)
    ensures Listed(edges, adjacency)
  {
    forall l, i | l in adjacency && i in adjacency[l]
      ensures i < |edges| && edges[i].left == l
    {
      assert i in At(edges, live, TeacherSide, l);
    }
  }

  lemma MatesAreLive(edges: seq<Edge>, live: set<nat>, n: nat, adjacency: Adjacency, mate: Mates)
    requires Within(edges, n) && ListsLive(edges, live, n, adjacency) && Drawn(edges, adjacency, mate)
    ensures forall r | r in mate :: mate[r] in live
  {
    forall r | r in mate
      ensures mate[r] in live
    {
      assert edges[mate[r]] in edges;
      assert mate[r] in At(edges, live, TeacherSide, edges[mate[r]].left);
    }
  }

  /** Hall's condition: in a regular multigraph every search succeeds. */
  lemma RegularHasNoDeadEnd(edges: seq<Edge>, adjacency: Adjacency, live: set<nat>, n: nat, k: nat,
                            mate: Mates, dead: set<nat>, l: nat)
    requires k > 0 && Regular(edges, live, n, k) && l < n && ListsLive(edges, live, n, adjacency)
    requires Listed(edges, adjacency) && IsMatching(edges, adjacency, mate) && Dead(edges, adjacency, mate, dead)
    requires !Covers(edges, mate, l)
    ensures !Confined(edges, adjacency, l, dead)
  {
    if Confined(edges, adjacency, l, dead) {
      var lefts := StuckLefts(edges, adjacency, n, mate, dead, l);
      ConfinedEdges(edges, adjacency, live, n, lefts, dead);
      TooManyEdges(edges, live, n, k, lefts, dead);
    }
  }

  /** The uncovered vertex and the holders of a dead set: one vertex more than the dead set has. */
  lemma StuckLefts(edges: seq<Edge>, adjacency: Adjacency, n: nat, mate: Mates, dead: set<nat>, l: nat) returns (lefts: set<nat>)
    requires Within(edges, n) && IsMatching(edges, adjacency, mate) && Dead(edges, adjacency, mate, dead)
    requires l < n && !Covers(edges, mate, l) && Confined(edges, adjacency, l, dead)
    ensures forall h | h in lefts :: h < n && Confined(edges, adjacency, h, dead)
    ensures forall r | r in dead :: r < n
    ensures |lefts| == |dead| + 1
  {
    var holders := Holders(edges, mate, dead);
    assert l !in holders;
    lefts := holders + {l};
    forall r | r in dead
      ensures r < n
    {
      assert edges[mate[r]] in edges;
    }
    forall h | h in holders
      ensures h < n && Confined(edges, adjacency, h, dead)
    {
      var r :| r in dead && edges[mate[r]].left == h;
      assert edges[mate[r]] in edges;
    }
  }

  lemma TooManyEdges(edges: seq<Edge>, live: set<nat>, n: nat, k: nat, lefts: set<nat>, rights: set<nat>)
    requires Regular(edges, live, n, k) && k > 0
    requires forall l | l in lefts :: l < n
    requires forall r | r in rights :: r < n
    requires |lefts| == |rights| + 1
    ensures |Touching(edges, live, TeacherSide, lefts)| > |Touching(edges, live, CohortSide, rights)|
  {
    TouchingCount(edges, live, TeacherSide, lefts, k);
    TouchingCount(edges, live, CohortSide, rights, k);
    assert k * |lefts| == k * |rights| + k;
  }

  lemma ConfinedEdges(edges: seq<Edge>, adjacency: Adjacency, live: set<nat>, n: nat, lefts: set<nat>, rights: set<nat>)
    requires ListsLive(edges, live, n, adjacency)
    requires forall l | l in lefts :: l < n && Confined(edges, adjacency, l, rights)
    ensures |Touching(edges, live, TeacherSide, lefts)| <= |Touching(edges, live, CohortSide, rights)|
  {
    var a, b := Touching(edges, live, TeacherSide, lefts), Touching(edges, live, CohortSide, rights);
    forall i | i in a
      ensures i in b
    {
      var l := edges[i].left;
      assert i in At(edges, live, TeacherSide, l);
      assert i in adjacency[l];
    }
    SplitSize(b, a);
  }

  /** The left vertices that hold the covered right vertices `rights`. */
  ghost function {:induction false} Holders(edges: seq<Edge>, mate: Mates, rights: set<nat>): (r: set<nat>)
    requires forall v | v in rights :: v in mate && mate[v] < |edges|
    requires forall u, v | u in rights && v in rights && u != v :: edges[mate[u]].left != edges[mate[v]].left
    ensures forall l :: l in r <==> exists v | v in rights :: edges[mate[v]].left == l
    ensures |r| == |rights|
  {
    if rights == {} then {}
    else
      var v :| v in rights;
      Holders(edges, mate, rights - {v}) + {edges[mate[v]].left}
  }

  ghost predicate Perfect(edges: seq<Edge>, live: set<nat>, n: nat, mate: Mates) {
    && mate.Keys == Below(n)
    && (forall r | r in mate :: mate[r] in live && mate[r] < |edges| && edges[mate[r]].right == r)
    && Disjoint(edges, mate)
    && forall l: nat | l < n :: Covers(edges, mate, l)
  }

  /** A matching of live edges that covers every left vertex is perfect. */
  lemma CoveringIsPerfect(edges: seq<Edge>, adjacency: Adjacency, live: set<nat>, n: nat, mate: Mates)
    requires Within(edges, n) && ListsLive(edges, live, n, adjacency) && IsMatching(edges, adjacency, mate)
    requires forall l: nat | l < n :: Covers(edges, mate, l)
    ensures Perfect(edges, live, n, mate)
  {
    MatesAreLive(edges, live, n, adjacency, mate);
    LiveCoveringIsPerfect(edges, adjacency, live, n, mate);
  }

  lemma LiveCoveringIsPerfect(edges: seq<Edge>, adjacency: Adjacency, live: set<nat>, n: nat, mate: Mates)
    requires Within(edges, n) && IsMatching(edges, adjacency, mate)
    requires forall r | r in mate :: mate[r] in live
    requires forall l: nat | l < n :: Covers(edges, mate, l)
    ensures Perfect(edges, live, n, mate)
  {
    CoveringCoversAll(edges, adjacency, n, mate);
  }

  lemma EveryLeftCovered(edges: seq<Edge>, adjacency: Adjacency, live: set<nat>, n: nat, k: nat, mate: Mates, dead: set<nat>)
    requires k > 0 && Regular(edges, live, n, k) && ListsLive(edges, live, n, adjacency)
    requires Listed(edges, adjacency) && IsMatching(edges, adjacency, mate) && Dead(edges, adjacency, mate, dead)
    requires forall l: nat | l < n :: Covers(edges, mate, l) || Confined(edges, adjacency, l, dead)
    ensures forall l: nat | l < n :: Covers(edges, mate, l)
  {
    forall l: nat | l < n
      ensures Covers(edges, mate, l)
    {
      if !Covers(edges, mate, l) {
        RegularHasNoDeadEnd(edges, adjacency, live, n, k, mate, dead, l);
      }
    }
  }

  /** A matching that covers all `n` left vertices covers all `n` right vertices. */
  lemma CoveringCoversAll(edges: seq<Edge>, adjacency: Adjacency, n: nat, mate: Mates)
    requires Within(edges, n) && IsMatching(edges, adjacency, mate)
    requires forall l: nat | l < n :: Covers(edges, mate, l)
    ensures mate.Keys == Below(n)
  {
    forall r | r in mate
      ensures r < n
    {
      assert edges[mate[r]] in edges;
    }
    var h := map l | l in Below(n) :: Holding(edges, mate, l);
    InjectionSize(Below(n), mate.Keys, h);
    FullSubset(mate.Keys, Below(n));
  }

  lemma FullSubset(a: set<nat>, b: set<nat>)
    requires a <= b && |b| <= |a|
    ensures a == b
  {
    SplitSize(b, a);
    assert b - a == {};
  }

  ghost function Taken(mate: Mates, n: nat): set<nat> {
    set r | r in mate && r < n :: mate[r]
  }

  /** A perfect matching meets the live edges of every vertex in exactly one edge. */
  lemma PerfectTakesOne(edges: seq<Edge>, live: set<nat>, n: nat, k: nat, mate: Mates)
    requires k > 0 && Regular(edges, live, n, k) && Perfect(edges, live, n, mate)
    ensures Regular(edges, live - Taken(mate, n), n, k - 1)
  {
    forall side: Side, v: nat | v < n
      ensures |At(edges, live - Taken(mate, n), side, v)| == k - 1
    {
      TakesOneAt(edges, live, n, mate, side, v);
    }
  }

  lemma TakesOneAt(edges: seq<Edge>, live: set<nat>, n: nat, mate: Mates, side: Side, v: nat)
    requires Perfect(edges, live, n, mate) && v < n
    ensures |At(edges, live - Taken(mate, n), side, v)| == |At(edges, live, side, v)| - 1
  {
    var r := if side.CohortSide? then v else Holding(edges, mate, v);
    var one := mate[r];
    var before, after := At(edges, live, side, v), At(edges, live - Taken(mate, n), side, v);
    assert one in Taken(mate, n) && one in before;
    forall i | i in before && i != one
      ensures i in after
    {
      if i in Taken(mate, n) {
        var s :| s in mate && s < n && mate[s] == i;
        assert s != r;
      }
    }
    assert after == before - {one};
  }

  /** What one colour is: lessons picked from live edges, no two of them at the same vertex. */
  ghost predicate Picked(edges: seq<Edge>, live: set<nat>, lessons: seq<Id>, picks: seq<nat>) {
    && |picks| == |lessons|
    && (forall i | 0 <= i < |picks| :: picks[i] in live && picks[i] < |edges| && edges[picks[i]].assignment == lessons[i] != NO_ID)
    && (forall i, j | 0 <= i < j < |picks| :: edges[picks[i]].left != edges[picks[j]].left && edges[picks[i]].right != edges[picks[j]].right)
  }

  /** Every edge that went from `before` to `after` was reported once, as a lesson of its assignment. */
  ghost predicate Accounted(edges: seq<Edge>, before: set<nat>, after: set<nat>, lessons: seq<Id>) {
    forall id: Id | id != NO_ID :: |Of(edges, after, id)| + multiset(lessons)[id] == |Of(edges, before, id)|
  }

  lemma RemoveEdge(edges: seq<Edge>, live: set<nat>, e: nat, id: Id)
    requires e in live && e < |edges|
    ensures |Of(edges, live, id)| == |Of(edges, live - {e}, id)| + if edges[e].assignment == id then 1 else 0
  {
    if edges[e].assignment == id {
      assert Of(edges, live, id) == Of(edges, live - {e}, id) + {e};
    } else {
      assert Of(edges, live, id) == Of(edges, live - {e}, id);
    }
  }

  lemma AccountOne(edges: seq<Edge>, before: set<nat>, after: set<nat>, lessons: seq<Id>, e: nat)
    requires e in after && e < |edges| && Accounted(edges, before, after, lessons)
    ensures edges[e].assignment == NO_ID ==> Accounted(edges, before, after - {e}, lessons)
    ensures edges[e].assignment != NO_ID ==> Accounted(edges, before, after - {e}, lessons + [edges[e].assignment])
  {
    forall id: Id | id != NO_ID
      ensures |Of(edges, after, id)| == |Of(edges, after - {e}, id)| + if edges[e].assignment == id then 1 else 0
    {
      RemoveEdge(edges, after, e, id);
    }
  }

  /** Takes the matched edges out of the live ones and collects the lessons among them. */
  method TakeMatching(edges: seq<Edge>, active: array<bool>, n: nat, matchRight: Mates)
    returns (lessons: seq<Id>, ghost picks: seq<nat>)
    requires active.Length == |edges| && Perfect(edges, Alive(active[..]), n, matchRight)
    modifies active
    ensures Alive(active[..]) == old(Alive(active[..])) - Taken(matchRight, n)
    ensures Picked(edges, old(Alive(active[..])), lessons, picks)
    ensures Accounted(edges, old(Alive(active[..])), Alive(active[..]), lessons)
  {
    ghost var live := Alive(active[..]);
    lessons, picks := [], [];
    assert Taken(matchRight, 0) == {};
    hide Accounted, Picked, PickedBelow, Taken;
    for r := 0 to n
      invariant Alive(active[..]) == live - Taken(matchRight, r)
      invariant Picked(edges, live, lessons, picks) && PickedBelow(edges, matchRight, r, picks)
      invariant Accounted(edges, live, Alive(active[..]), lessons)
    {
      if r in matchRight {
        var e := matchRight[r];
        ghost var before := Alive(active[..]);
        TakeStep(edges, live, n, matchRight, r, before, lessons, picks);
        active[e] := false;
        assert Alive(active[..]) == before - {e};
        if edges[e].assignment != NO_ID {
          lessons, picks := lessons + [edges[e].assignment], picks + [e];
        }
      }
    }
  }

  lemma TakeStep(edges: seq<Edge>, live: set<nat>, n: nat, mate: Mates, r: nat, before: set<nat>, lessons: seq<Id>, picks: seq<nat>)
    requires Perfect(edges, live, n, mate) && r < n
    requires before == live - Taken(mate, r) && Accounted(edges, live, before, lessons)
    requires Picked(edges, live, lessons, picks) && PickedBelow(edges, mate, r, picks)
    ensures mate[r] in before && before - {mate[r]} == live - Taken(mate, r + 1)
    ensures edges[mate[r]].assignment == NO_ID ==>
              && Accounted(edges, live, before - {mate[r]}, lessons)
              && PickedBelow(edges, mate, r + 1, picks)
    ensures edges[mate[r]].assignment != NO_ID ==>
              && Accounted(edges, live, before - {mate[r]}, lessons + [edges[mate[r]].assignment])
              && Picked(edges, live, lessons + [edges[mate[r]].assignment], picks + [mate[r]])
              && PickedBelow(edges, mate, r + 1, picks + [mate[r]])
  {
    TakenOneMore(edges, live, n, mate, r);
    AccountOne(edges, live, before, lessons, mate[r]);
    if edges[mate[r]].assignment != NO_ID {
      PickOne(edges, live, n, mate, r, lessons, picks);
    }
  }

  ghost predicate PickedBelow(edges: seq<Edge>, mate: Mates, n: nat, picks: seq<nat>) {
    forall i | 0 <= i < |picks| ::
      picks[i] < |edges| && edges[picks[i]].right < n && edges[picks[i]].right in mate && mate[edges[picks[i]].right] == picks[i]
  }

  lemma PickOne(edges: seq<Edge>, live: set<nat>, n: nat, mate: Mates, r: nat, lessons: seq<Id>, picks: seq<nat>)
    requires Perfect(edges, live, n, mate) && r < n
    requires Picked(edges, live, lessons, picks) && PickedBelow(edges, mate, r, picks)
    requires edges[mate[r]].assignment != NO_ID
    ensures Picked(edges, live, lessons + [edges[mate[r]].assignment], picks + [mate[r]])
    ensures PickedBelow(edges, mate, r + 1, picks + [mate[r]])
  {
  }

  lemma TakenOneMore(edges: seq<Edge>, live: set<nat>, n: nat, mate: Mates, r: nat)
    requires Perfect(edges, live, n, mate) && r < n
    ensures Taken(mate, r + 1) == Taken(mate, r) + {mate[r]} && mate[r] !in Taken(mate, r)
  {
  }

  /** One search from each left vertex 0..n-1, in that order; in a regular multigraph all of them succeed. */
  method SearchEveryLeft(edges: seq<Edge>, adjacency: Adjacency, n: nat, ghost live: set<nat>, ghost k: nat) returns (matchRight: Mates)
    requires k > 0 && Regular(edges, live, n, k) && ListsLive(edges, live, n, adjacency) && Listed(edges, adjacency)
    ensures IsMatching(edges, adjacency, matchRight) && forall l: nat | l < n :: Covers(edges, matchRight, l)
  {
    var matcher := new Matcher(edges, adjacency);
    var order := seq(n, i => i);
    ghost var failed, dead := matcher.CoverAll(order);
    forall l: nat | l < n
      ensures l in order
    {
      assert order[l] == l;
    }
    matchRight := matcher.mate;
    EveryLeftCovered(edges, adjacency, live, n, k, matchRight, dead);
  }

  /** The searches of one round find a perfect matching of the live edges. */
  method MatchColor(edges: seq<Edge>, active: array<bool>, n: nat, ghost k: nat) returns (matchRight: Mates)
    requires active.Length == |edges| && k > 0 && Regular(edges, Alive(active[..]), n, k)
    ensures Perfect(edges, Alive(active[..]), n, matchRight)
  {
    ghost var flags := active[..];
    var adjacency := ActiveAdjacency(edges, active, n);
    assert active[..] == flags;
    LiveIsListed(edges, Alive(flags), n, adjacency);
    matchRight := SearchEveryLeft(edges, adjacency, n, Alive(flags), k);
    CoveringIsPerfect(edges, adjacency, Alive(flags), n, matchRight);
    assert active[..] == flags;
  }

  /** One round of the peeling loop: takes a perfect matching away and reports its real edges. */
  method PeelColor(edges: seq<Edge>, active: array<bool>, n: nat, ghost k: nat) returns (lessons: seq<Id>, ghost picks: seq<nat>)
    requires active.Length == |edges| && k > 0 && Regular(edges, Alive(active[..]), n, k)
    modifies active
    ensures Regular(edges, Alive(active[..]), n, k - 1)
    ensures Picked(edges, old(Alive(active[..])), lessons, picks)
    ensures Accounted(edges, old(Alive(active[..])), Alive(active[..]), lessons)
  {
    ghost var live := Alive(active[..]);
    var matchRight := MatchColor(edges, active, n, k);
    PerfectTakesOne(edges, live, n, k, matchRight);
    lessons, picks := TakeMatching(edges, active, n, matchRight);
    assert Alive(active[..]) == live - Taken(matchRight, n);
  }

  // ----- building the multigraph and padding it

  /** The degree array of one side counts that side's edges and stays within `delta`. */
  ghost predicate Degrees(edges: seq<Edge>, side: Side, degree: seq<nat>, n: nat, delta: nat) {
    && |degree| == n
    && forall v: nat | v < n :: degree[v] == |At(edges, All(edges), side, v)| <= delta
  }

  /** `delta` is the largest degree of the two sides. */
  ghost predicate Attained(left: seq<nat>, right: seq<nat>, delta: nat) {
    delta == 0 || delta in left || delta in right
  }

  /** Edges of the same two ends, `count` of them, with no assignment behind them. */
  method AppendPadding(edges: seq<Edge>, left: nat, right: nat, count: nat) returns (padded: seq<Edge>)
    ensures edges <= padded
    ensures forall i | |edges| <= i < |padded| :: padded[i] == Edge(left, right, NO_ID)
    ensures forall side: Side, v: nat :: |At(padded, All(padded), side, v)|
                                   == |At(edges, All(edges), side, v)| + if EdgeEnd(side, Edge(left, right, NO_ID)) == v then count else 0
    ensures forall id: Id | id != NO_ID :: |Of(padded, All(padded), id)| == |Of(edges, All(edges), id)|
  {
    padded := edges;
    for done := 0 to count
      invariant edges <= padded
      invariant forall i | |edges| <= i < |padded| :: padded[i] == Edge(left, right, NO_ID)
      invariant forall side: Side, v: nat :: |At(padded, All(padded), side, v)|
                                       == |At(edges, All(edges), side, v)| + if EdgeEnd(side, Edge(left, right, NO_ID)) == v then done else 0
      invariant forall id: Id | id != NO_ID :: |Of(padded, All(padded), id)| == |Of(edges, All(edges), id)|
    {
      AppendEdge(padded, Edge(left, right, NO_ID));
      padded := padded + [Edge(left, right, NO_ID)];
    }
  }

  /** Pads the smaller of the two deficits away. */
  method FillDeficit(edges: seq<Edge>, leftDegree: array<nat>, rightDegree: array<nat>, n: nat, delta: nat, left: nat, right: nat)
    returns (padded: seq<Edge>)
    requires leftDegree != rightDegree && Within(edges, n) && left < n && right < n
    requires Degrees(edges, TeacherSide, leftDegree[..], n, delta) && Degrees(edges, CohortSide, rightDegree[..], n, delta)
    modifies leftDegree, rightDegree
    ensures edges <= padded && Within(padded, n)
    ensures Degrees(padded, TeacherSide, leftDegree[..], n, delta) && Degrees(padded, CohortSide, rightDegree[..], n, delta)
    ensures leftDegree[left] == delta || rightDegree[right] == delta
    ensures forall v | 0 <= v < n && v != left :: leftDegree[v] == old(leftDegree[v])
    ensures forall v | 0 <= v < n && v != right :: rightDegree[v] == old(rightDegree[v])
    ensures forall i | |edges| <= i < |padded| :: padded[i].assignment == NO_ID
    ensures forall id: Id | id != NO_ID :: |Of(padded, All(padded), id)| == |Of(edges, All(edges), id)|
  {
    var amount := delta - leftDegree[left];
    if delta - rightDegree[right] < amount {
      amount := delta - rightDegree[right];
    }
    padded := AppendPadding(edges, left, right, amount);
    leftDegree[left] := leftDegree[left] + amount;
    rightDegree[right] := rightDegree[right] + amount;
  }

  /** Fills every deficit with padding edges, so that the multigraph becomes `delta`-regular. */
  method Pad(edges: seq<Edge>, leftDegree: array<nat>, rightDegree: array<nat>, n: nat, delta: nat) returns (padded: seq<Edge>)
    requires leftDegree != rightDegree && Within(edges, n)
    requires Degrees(edges, TeacherSide, leftDegree[..], n, delta) && Degrees(edges, CohortSide, rightDegree[..], n, delta)
    modifies leftDegree, rightDegree
    ensures edges <= padded && Regular(padded, All(padded), n, delta)
    ensures forall i | |edges| <= i < |padded| :: padded[i].assignment == NO_ID
    ensures forall id: Id | id != NO_ID :: |Of(padded, All(padded), id)| == |Of(edges, All(edges), id)|
  {
    padded := edges;
    var leftCursor, rightCursor := 0, 0;
    while leftCursor < n && rightCursor < n
      invariant leftCursor <= n && rightCursor <= n && edges <= padded && Within(padded, n)
      invariant Degrees(padded, TeacherSide, leftDegree[..], n, delta) && Degrees(padded, CohortSide, rightDegree[..], n, delta)
      invariant forall v | 0 <= v < leftCursor :: leftDegree[v] == delta
      invariant forall v | 0 <= v < rightCursor :: rightDegree[v] == delta
      invariant forall i | |edges| <= i < |padded| :: padded[i].assignment == NO_ID
      invariant forall id: Id | id != NO_ID :: |Of(padded, All(padded), id)| == |Of(edges, All(edges), id)|
      decreases (n - leftCursor) + (n - rightCursor),
                if leftCursor < n && rightCursor < n && leftDegree[leftCursor] < delta && rightDegree[rightCursor] < delta then 1 else 0
    {
      leftCursor := SkipFull(leftDegree, leftCursor, delta);
      rightCursor := SkipFull(rightDegree, rightCursor, delta);
      if leftCursor == n || rightCursor == n {
        break;
      }
      padded := FillDeficit(padded, leftDegree, rightDegree, n, delta, leftCursor, rightCursor);
    }
    if leftCursor == n {
      BalancedIsRegular(padded, n, delta, TeacherSide, CohortSide);
    } else {
      BalancedIsRegular(padded, n, delta, CohortSide, TeacherSide);
    }
  }

  /** The next vertex that still has a deficit. */
  method SkipFull(degree: array<nat>, start: nat, delta: nat) returns (cursor: nat)
    requires start <= degree.Length
    ensures start <= cursor <= degree.Length
    ensures forall v | start <= v < cursor :: degree[v] == delta
    ensures cursor < degree.Length ==> degree[cursor] != delta
  {
    cursor := start;
    while cursor < degree.Length && degree[cursor] == delta
      invariant start <= cursor <= degree.Length
      invariant forall v | start <= v < cursor :: degree[v] == delta
    {
      cursor := cursor + 1;
    }
  }

  /** The number given to each identifier: its position. */
  method NumberVertices(ids: seq<Id>) returns (index: map<Id, nat>)
    requires Distinct(ids)
    ensures forall id :: id in index <==> id in ids
    ensures forall k | 0 <= k < |ids| :: index[ids[k]] == k
  {
    index := map[];
    for k := 0 to |ids|
      invariant forall id :: id in index <==> id in ids[..k]
      invariant forall j | 0 <= j < k :: index[ids[j]] == j
    {
      assert ids[..k + 1] == ids[..k] + [ids[k]];
      index := index[ids[k] := k];
    }
    assert ids[..|ids|] == ids;
  }

  /** Every edge of `edges` stands for one of `ids` and joins the vertices of its teacher and its cohort. */
  ghost predicate Stands(edges: seq<Edge>, assignments: map<Id, Assignment>, ids: seq<Id>, leftIndex: map<Id, nat>, rightIndex: map<Id, nat>) {
    forall e | e in edges ::
      && e.assignment in ids && e.assignment in assignments
      && assignments[e.assignment].teacher in leftIndex && e.left == leftIndex[assignments[e.assignment].teacher]
      && assignments[e.assignment].cohort in rightIndex && e.right == rightIndex[assignments[e.assignment].cohort]
  }

  /** One lesson unit: an edge, its two degrees and the largest degree so far. */
  method AddUnit(edges: seq<Edge>, leftDegree: array<nat>, rightDegree: array<nat>, n: nat, delta: nat, e: Edge)
    returns (longer: seq<Edge>, largest: nat)
    requires leftDegree != rightDegree && Within(edges, n) && e.left < n && e.right < n
    requires Degrees(edges, TeacherSide, leftDegree[..], n, delta) && Degrees(edges, CohortSide, rightDegree[..], n, delta)
    requires Attained(leftDegree[..], rightDegree[..], delta)
    modifies leftDegree, rightDegree
    ensures longer == edges + [e] && Within(longer, n)
    ensures Degrees(longer, TeacherSide, leftDegree[..], n, largest) && Degrees(longer, CohortSide, rightDegree[..], n, largest)
    ensures Attained(leftDegree[..], rightDegree[..], largest)
  {
    longer, largest := edges + [e], delta;
    AppendEdge(edges, e);
    ghost var l0, r0 := leftDegree[..], rightDegree[..];
    leftDegree[e.left] := leftDegree[e.left] + 1;
    rightDegree[e.right] := rightDegree[e.right] + 1;
    if leftDegree[e.left] > largest {
      largest := leftDegree[e.left];
    }
    if rightDegree[e.right] > largest {
      largest := rightDegree[e.right];
    }
    StillAttained(l0, r0, leftDegree[..], rightDegree[..], e.left, e.right, delta, largest);
  }

  lemma StillAttained(l0: seq<nat>, r0: seq<nat>, l1: seq<nat>, r1: seq<nat>, left: nat, right: nat, delta: nat, largest: nat)
    requires left < |l0| && right < |r0| && l1 == l0[left := l0[left] + 1] && r1 == r0[right := r0[right] + 1]
    requires Attained(l0, r0, delta)
    requires forall d | d in l0 + r0 :: d <= delta
    requires largest == delta || largest == l1[left] || largest == r1[right]
    requires largest >= delta && largest >= l1[left] && largest >= r1[right]
    ensures Attained(l1, r1, largest)
  {
    if largest == delta > 0 {
      if delta in l0 {
        var i :| 0 <= i < |l0| && l0[i] == delta;
        assert i != left && l1[i] == delta;
      } else {
        var i :| 0 <= i < |r0| && r0[i] == delta;
        assert i != right && r1[i] == delta;
      }
    }
  }

  /** The real edges: `Units` copies of each assignment, with the degrees they cause. */
  method BuildEdges(assignments: map<Id, Assignment>, order: seq<Id>, mode: Mode, leftIndex: map<Id, nat>, rightIndex: map<Id, nat>, n: nat)
    returns (edges: seq<Edge>, leftDegree: array<nat>, rightDegree: array<nat>, delta: nat)
    requires Distinct(order) && forall id | id in order :: id in assignments && Units(assignments[id], mode) >= 0
    requires forall id | id in order :: assignments[id].teacher in leftIndex && assignments[id].cohort in rightIndex
    requires forall id | id in leftIndex :: leftIndex[id] < n
    requires forall id | id in rightIndex :: rightIndex[id] < n
    ensures fresh(leftDegree) && fresh(rightDegree) && leftDegree != rightDegree && Within(edges, n)
    ensures Degrees(edges, TeacherSide, leftDegree[..], n, delta) && Degrees(edges, CohortSide, rightDegree[..], n, delta)
    ensures Attained(leftDegree[..], rightDegree[..], delta)
    ensures Stands(edges, assignments, order, leftIndex, rightIndex)
    ensures forall id | id in order :: |Of(edges, All(edges), id)| == Units(assignments[id], mode)
  {
    edges, delta := [], 0;
    leftDegree, rightDegree := new nat[n](_ => 0), new nat[n](_ => 0);
    for k := 0 to |order|
      invariant fresh(leftDegree) && fresh(rightDegree) && leftDegree != rightDegree && Within(edges, n)
      invariant Degrees(edges, TeacherSide, leftDegree[..], n, delta) && Degrees(edges, CohortSide, rightDegree[..], n, delta)
      invariant Attained(leftDegree[..], rightDegree[..], delta)
      invariant Stands(edges, assignments, order, leftIndex, rightIndex)
      invariant forall j | 0 <= j < |order| :: |Of(edges, All(edges), order[j])| == if j < k then Units(assignments[order[j]], mode) else 0
    {
      var a := assignments[order[k]];
      var e := Edge(leftIndex[a.teacher], rightIndex[a.cohort], order[k]);
      for unit := 0 to Units(a, mode)
        invariant fresh(leftDegree) && fresh(rightDegree) && leftDegree != rightDegree && Within(edges, n)
        invariant Degrees(edges, TeacherSide, leftDegree[..], n, delta) && Degrees(edges, CohortSide, rightDegree[..], n, delta)
        invariant Attained(leftDegree[..], rightDegree[..], delta)
        invariant Stands(edges, assignments, order, leftIndex, rightIndex)
        invariant forall j | 0 <= j < |order| :: |Of(edges, All(edges), order[j])|
                                           == if j < k then Units(assignments[order[j]], mode) else if j == k then unit else 0
      {
        AppendEdge(edges, e);
        edges, delta := AddUnit(edges, leftDegree, rightDegree, n, delta, e);
      }
    }
  }

  // ----- the colouring

  /** `list` enumerates the values of `assignments`, which is keyed by their non-empty identifiers. */
  ghost predicate Enumerates(assignments: map<Id, Assignment>, list: seq<Assignment>) {
    && (forall a | a in list :: a.id != NO_ID && a.id in assignments && assignments[a.id] == a)
    && (forall id | id in assignments :: assignments[id].id == id && assignments[id] in list)
    && DistinctIds(list)
  }

  /** Both ends of the assignment belong to the workspace, and it asks for no negative number of units. */
  predicate Colorable(problem: Problem, a: Assignment, mode: Mode) {
    && a.teacher in problem.teachers && problem.teachers[a.teacher].workspace == problem.workspace
    && a.cohort in problem.cohorts && problem.cohorts[a.cohort].workspace == problem.workspace
    && Units(a, mode) >= 0
  }

  /** A colour: lessons that can all happen at once. */
  ghost predicate Simultaneous(assignments: map<Id, Assignment>, lessons: seq<Id>) {
    && (forall id | id in lessons :: id in assignments)
    && forall i, j | 0 <= i < j < |lessons| ::
         && assignments[lessons[i]].teacher != assignments[lessons[j]].teacher
         && assignments[lessons[i]].cohort != assignments[lessons[j]].cohort
  }

  ghost predicate IsLargestLoad(list: seq<Assignment>, mode: Mode, delta: nat) {
    && (forall side: Side, key: Id :: Load(list, side, key, mode) <= delta)
    && (delta > 0 ==> exists side: Side, key: Id :: Load(list, side, key, mode) == delta)
  }

  ghost function IdsOf(list: seq<Assignment>): set<Id> {
    set a | a in list :: a.id
  }

  /** The edges at `v` that stand for one of `ids`. */
  ghost function AtFor(edges: seq<Edge>, ids: set<Id>, side: Side, v: nat): set<nat> {
    set i | i in At(edges, All(edges), side, v) && edges[i].assignment in ids
  }

  lemma AtForSplit(edges: seq<Edge>, ids: set<Id>, id: Id, side: Side, v: nat, here: bool)
    requires id !in ids
    requires forall i | i in Of(edges, All(edges), id) :: EdgeEnd(side, edges[i]) == v <==> here
    ensures |AtFor(edges, ids + {id}, side, v)| == |AtFor(edges, ids, side, v)| + if here then |Of(edges, All(edges), id)| else 0
  {
    var before, after := AtFor(edges, ids, side, v), AtFor(edges, ids + {id}, side, v);
    var mine := if here then Of(edges, All(edges), id) else {};
    forall i | i in after
      ensures i in before || i in mine
    {
      assert edges[i].assignment == id ==> i in Of(edges, All(edges), id);
    }
    assert after == before + mine;
  }

  lemma NewIds(rest: seq<Assignment>, a: Assignment)
    requires DistinctIds(rest + [a])
    ensures DistinctIds(rest) && a.id !in IdsOf(rest) && IdsOf(rest + [a]) == IdsOf(rest) + {a.id}
  {
    assert (rest + [a])[|rest|] == a;
    forall i, j | 0 <= i < j < |rest|
      ensures rest[i].id != rest[j].id
    {
      assert (rest + [a])[i] == rest[i] && (rest + [a])[j] == rest[j];
    }
    forall b | b in rest
      ensures b.id != a.id
    {
      var i :| 0 <= i < |rest| && rest[i] == b;
      assert (rest + [a])[i] == b;
    }
    assert forall b :: b in rest + [a] <==> b in rest || b == a;
  }

  /** The edges of the assignment end at the vertex of its teacher or cohort. */
  ghost predicate EndsAt(edges: seq<Edge>, a: Assignment, side: Side, index: map<Id, nat>) {
    forall e | e in edges && a.id == e.assignment :: End(side, a) in index && EdgeEnd(side, e) == index[End(side, a)]
  }

  lemma EndsHere(edges: seq<Edge>, a: Assignment, side: Side, index: map<Id, nat>, key: Id, v: nat)
    requires EndsAt(edges, a, side, index) && forall k | k in index :: index[k] == v <==> k == key
    ensures forall i | i in Of(edges, All(edges), a.id) :: EdgeEnd(side, edges[i]) == v <==> End(side, a) == key
  {
    forall i | i in Of(edges, All(edges), a.id)
      ensures EdgeEnd(side, edges[i]) == v <==> End(side, a) == key
    {
      assert edges[i] in edges;
    }
  }

  /** In the graph of the lessons, the degree of a vertex is the load of the teacher or cohort it stands for. */
  lemma {:induction false} DegreeIsLoad(edges: seq<Edge>, list: seq<Assignment>, side: Side, index: map<Id, nat>, key: Id, v: nat, mode: Mode)
    requires forall a | a in list :: |Of(edges, All(edges), a.id)| == Units(a, mode)
    requires forall a | a in list :: EndsAt(edges, a, side, index)
    requires forall k | k in index :: index[k] == v <==> k == key
    requires DistinctIds(list)
    ensures |AtFor(edges, IdsOf(list), side, v)| == Load(list, side, key, mode)
  {
    if list == [] {
      assert AtFor(edges, IdsOf(list), side, v) == {};
    } else {
      var rest, a := list[..|list| - 1], list[|list| - 1];
      hide At, AtFor, Of, All, Units, DistinctIds, IdsOf, EndsAt;
      assert list == rest + [a] && a in list && forall b | b in rest :: b in list;
      NewIds(rest, a);
      DegreeIsLoad(edges, rest, side, index, key, v, mode);
      EndsHere(edges, a, side, index, key, v);
      AtForSplit(edges, IdsOf(rest), a.id, side, v, End(side, a) == key);
    }
  }

  lemma {:induction false} NoLoad(list: seq<Assignment>, side: Side, key: Id, mode: Mode)
    requires forall a | a in list :: End(side, a) != key
    ensures Load(list, side, key, mode) == 0
  {
    if list != [] {
      NoLoad(list[..|list| - 1], side, key, mode);
    }
  }

  /** Different identifiers have different numbers below `n`. */
  ghost predicate Numbering(index: map<Id, nat>, n: nat) {
    && (forall k | k in index :: index[k] < n)
    && forall k, l | k in index && l in index && k != l :: index[k] != index[l]
  }

  /** The edges are exactly `Units` copies of each assignment of `list`, joining the right vertices of one side. */
  ghost predicate Realizes(edges: seq<Edge>, list: seq<Assignment>, side: Side, index: map<Id, nat>, mode: Mode) {
    && (forall a | a in list :: |Of(edges, All(edges), a.id)| == Units(a, mode) && End(side, a) in index)
    && (forall e | e in edges :: exists a | a in list :: a.id == e.assignment)
    && (forall e, a | e in edges && a in list && a.id == e.assignment :: EdgeEnd(side, e) == index[End(side, a)])
    && DistinctIds(list)
  }

  lemma LoadIsDegree(edges: seq<Edge>, list: seq<Assignment>, side: Side, index: map<Id, nat>, n: nat, key: Id, mode: Mode)
    requires Realizes(edges, list, side, index, mode) && Numbering(index, n) && key in index
    ensures Load(list, side, key, mode) == |At(edges, All(edges), side, index[key])|
  {
    var v := index[key];
    DegreeIsLoad(edges, list, side, index, key, v, mode);
    forall i | i in At(edges, All(edges), side, v)
      ensures edges[i].assignment in IdsOf(list)
    {
      assert edges[i] in edges;
    }
    assert AtFor(edges, IdsOf(list), side, v) == At(edges, All(edges), side, v);
  }

  lemma SideLoads(edges: seq<Edge>, list: seq<Assignment>, side: Side, index: map<Id, nat>, degree: seq<nat>, n: nat, delta: nat, mode: Mode)
    requires Realizes(edges, list, side, index, mode) && Numbering(index, n) && Degrees(edges, side, degree, n, delta)
    ensures forall key: Id :: Load(list, side, key, mode) <= delta
    ensures delta > 0 && delta in degree ==> exists key: Id :: Load(list, side, key, mode) == delta
  {
    forall key: Id
      ensures Load(list, side, key, mode) <= delta
    {
      if key in index {
        LoadIsDegree(edges, list, side, index, n, key, mode);
      } else {
        NoLoad(list, side, key, mode);
      }
    }
    if delta > 0 && delta in degree {
      var v :| 0 <= v < n && degree[v] == delta;
      assert At(edges, All(edges), side, v) != {};
      var i :| i in At(edges, All(edges), side, v);
      assert edges[i] in edges;
      var a :| a in list && a.id == edges[i].assignment;
      LoadIsDegree(edges, list, side, index, n, End(side, a), mode);
    }
  }

  lemma LargestLoad(edges: seq<Edge>, list: seq<Assignment>, leftIndex: map<Id, nat>, rightIndex: map<Id, nat>,
                    leftDegree: seq<nat>, rightDegree: seq<nat>, n: nat, delta: nat, mode: Mode)
    requires Realizes(edges, list, TeacherSide, leftIndex, mode) && Realizes(edges, list, CohortSide, rightIndex, mode)
    requires Numbering(leftIndex, n) && Numbering(rightIndex, n)
    requires Degrees(edges, TeacherSide, leftDegree, n, delta) && Degrees(edges, CohortSide, rightDegree, n, delta)
    requires Attained(leftDegree, rightDegree, delta)
    ensures IsLargestLoad(list, mode, delta)
  {
    SideLoads(edges, list, TeacherSide, leftIndex, leftDegree, n, delta, mode);
    SideLoads(edges, list, CohortSide, rightIndex, rightDegree, n, delta, mode);
    forall side: Side, key: Id
      ensures Load(list, side, key, mode) <= delta
    {
      if side == TeacherSide {
      }
    }
  }

  lemma StandsRealizes(edges: seq<Edge>, assignments: map<Id, Assignment>, list: seq<Assignment>, order: seq<Id>,
                       leftIndex: map<Id, nat>, rightIndex: map<Id, nat>, mode: Mode)
    requires Enumerates(assignments, list) && forall id :: id in order <==> id in assignments
    requires Stands(edges, assignments, order, leftIndex, rightIndex)
    requires forall a | a in list :: a.teacher in leftIndex && a.cohort in rightIndex
    requires forall id | id in order :: |Of(edges, All(edges), id)| == Units(assignments[id], mode)
    ensures Realizes(edges, list, TeacherSide, leftIndex, mode) && Realizes(edges, list, CohortSide, rightIndex, mode)
  {
    forall e | e in edges
      ensures exists a | a in list :: a.id == e.assignment
    {
      assert assignments[e.assignment] in list;
    }
  }

  /** The picks of one round, read as lessons, can all happen at once. */
  lemma PickedIsSimultaneous(edges: seq<Edge>, padded: seq<Edge>, live: set<nat>, assignments: map<Id, Assignment>, order: seq<Id>,
                             leftIndex: map<Id, nat>, rightIndex: map<Id, nat>, lessons: seq<Id>, picks: seq<nat>)
    requires edges <= padded && forall i | |edges| <= i < |padded| :: padded[i].assignment == NO_ID
    requires Stands(edges, assignments, order, leftIndex, rightIndex)
    requires Picked(padded, live, lessons, picks)
    ensures Simultaneous(assignments, lessons)
  {
    forall i | 0 <= i < |lessons|
      ensures lessons[i] in assignments
      ensures assignments[lessons[i]].teacher in leftIndex && padded[picks[i]].left == leftIndex[assignments[lessons[i]].teacher]
      ensures assignments[lessons[i]].cohort in rightIndex && padded[picks[i]].right == rightIndex[assignments[lessons[i]].cohort]
    {
      assert padded[picks[i]] == edges[picks[i]] && edges[picks[i]] in edges;
    }
  }

  lemma RegularZeroIsEmpty(edges: seq<Edge>, live: set<nat>, n: nat, id: Id)
    requires Regular(edges, live, n, 0)
    ensures Of(edges, live, id) == {}
  {
    forall v: nat | v < n
      ensures At(edges, live, TeacherSide, v) == {}
    {
    }
    forall i | i in live
      ensures i in At(edges, live, TeacherSide, edges[i].left) && edges[i].left < n
    {
      assert edges[i] in edges;
    }
  }

  /** The peeling loop: `delta` rounds use up a `delta`-regular multigraph. */
  method PeelAll(edges: seq<Edge>, padded: seq<Edge>, n: nat, delta: nat, ghost assignments: map<Id, Assignment>,
                 ghost order: seq<Id>, ghost leftIndex: map<Id, nat>, ghost rightIndex: map<Id, nat>)
    returns (colors: seq<seq<Id>>)
    requires edges <= padded && forall i | |edges| <= i < |padded| :: padded[i].assignment == NO_ID
    requires Stands(edges, assignments, order, leftIndex, rightIndex)
    requires Regular(padded, All(padded), n, delta)
    ensures |colors| == delta && forall lessons | lessons in colors :: Simultaneous(assignments, lessons)
    ensures forall id: Id | id != NO_ID :: Occurrences(colors, id) == |Of(padded, All(padded), id)|
  {
    var active := new bool[|padded|](_ => true);
    assert Alive(active[..]) == All(padded);
    colors := [];
    for color := 0 to delta
      invariant fresh(active) && active.Length == |padded| && |colors| == color
      invariant Regular(padded, Alive(active[..]), n, delta - color)
      invariant forall lessons | lessons in colors :: Simultaneous(assignments, lessons)
      invariant forall id: Id | id != NO_ID :: Occurrences(colors, id) + |Of(padded, Alive(active[..]), id)| == |Of(padded, All(padded), id)|
    {
      ghost var live := Alive(active[..]);
      var lessons;
      ghost var picks;
      lessons, picks := PeelColor(padded, active, n, delta - color);
      PickedIsSimultaneous(edges, padded, live, assignments, order, leftIndex, rightIndex, lessons, picks);
      assert (colors + [lessons])[..|colors|] == colors;
      colors := colors + [lessons];
    }
    forall id: Id | id != NO_ID
      ensures Occurrences(colors, id) == |Of(padded, All(padded), id)|
    {
      RegularZeroIsEmpty(padded, Alive(active[..]), n, id);
    }
  }

  method WorkspaceTeachers(problem: Problem) returns (ids: seq<Id>)
    ensures Distinct(ids) && forall id :: id in ids <==> id in problem.teachers && problem.teachers[id].workspace == problem.workspace
  {
    var keys := KeysInSomeOrder(problem.teachers);
    ids := [];
    for k := 0 to |keys|
      invariant forall id :: id in ids <==> id in keys[..k] && problem.teachers[id].workspace == problem.workspace
      invariant Distinct(ids)
    {
      assert keys[..k + 1] == keys[..k] + [keys[k]];
      if problem.teachers[keys[k]].workspace == problem.workspace {
        ids := ids + [keys[k]];
      }
    }
    assert keys[..|keys|] == keys;
    SameElements(ids, SortIds(ids));
    DistinctPermutation(ids, SortIds(ids));
    ids := SortIds(ids);
  }

  method WorkspaceCohorts(problem: Problem) returns (ids: seq<Id>)
    ensures Distinct(ids) && forall id :: id in ids <==> id in problem.cohorts && problem.cohorts[id].workspace == problem.workspace
  {
    var keys := KeysInSomeOrder(problem.cohorts);
    ids := [];
    for k := 0 to |keys|
      invariant forall id :: id in ids <==> id in keys[..k] && problem.cohorts[id].workspace == problem.workspace
      invariant Distinct(ids)
    {
      assert keys[..k + 1] == keys[..k] + [keys[k]];
      if problem.cohorts[keys[k]].workspace == problem.workspace {
        ids := ids + [keys[k]];
      }
    }
    assert keys[..|keys|] == keys;
    SameElements(ids, SortIds(ids));
    DistinctPermutation(ids, SortIds(ids));
    ids := SortIds(ids);
  }

  /** Colours the lessons with as many colours as the busiest teacher or cohort needs, and no more: no colour
      books a teacher or a cohort twice, and every assignment gets exactly its units. */
  method ExactBipartiteColors(problem: Problem, assignments: map<Id, Assignment>, mode: Mode, ghost list: seq<Assignment>)
    returns (colors: seq<seq<Id>>)
    requires Enumerates(assignments, list) && forall a | a in list :: Colorable(problem, a, mode)
    ensures IsLargestLoad(list, mode, |colors|)
    ensures forall lessons | lessons in colors :: Simultaneous(assignments, lessons)
    ensures forall id | id in assignments :: Occurrences(colors, id) == Units(assignments[id], mode)
  {
    var leftIDs := WorkspaceTeachers(problem);
    var rightIDs := WorkspaceCohorts(problem);
    var n := if |leftIDs| < |rightIDs| then |rightIDs| else |leftIDs|;
    var leftIndex := NumberVertices(leftIDs);
    var rightIndex := NumberVertices(rightIDs);
    var keys := KeysInSomeOrder(assignments);
    var order := SortIds(keys);
    SameElements(keys, order);
    DistinctPermutation(keys, order);
    var edges, leftDegree, rightDegree, delta := BuildEdges(assignments, order, mode, leftIndex, rightIndex, n);
    StandsRealizes(edges, assignments, list, order, leftIndex, rightIndex, mode);
    LargestLoad(edges, list, leftIndex, rightIndex, leftDegree[..], rightDegree[..], n, delta, mode);
    var padded := Pad(edges, leftDegree, rightDegree, n, delta);
    colors := PeelAll(edges, padded, n, delta, assignments, order, leftIndex, rightIndex);
  }
}

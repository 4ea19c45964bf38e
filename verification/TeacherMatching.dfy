/** `maximumMatching`: one period's teacher-to-cohort matching among the candidate lessons. */
module TeacherMatching {
  import opened Model
  import opened Matching

  /** Edges of `edges`, no two of them with the same teacher (left) or the same cohort (right). */
  ghost predicate IsDisjointChoice(edges: seq<Edge>, choice: seq<Edge>) {
    && (forall e | e in choice :: e in edges)
    && forall i, j | 0 <= i < j < |choice| :: choice[i].left != choice[j].left && choice[i].right != choice[j].right
  }

  /** `adjacency` lists every edge at its left end, and nothing else. */
  ghost predicate GroupsAll(edges: seq<Edge>, n: nat, adjacency: Adjacency)
    requires n <= |edges|
  {
    && (forall l, i {:trigger i in adjacency[l]} | l in adjacency && i in adjacency[l] :: i < n && edges[i].left == l)
    && (forall i | 0 <= i < n :: edges[i].left in adjacency && i in adjacency[edges[i].left])
  }

  method GroupByLeft(edges: seq<Edge>) returns (adjacency: Adjacency, lefts: seq<nat>)
    ensures GroupsAll(edges, |edges|, adjacency)
    ensures Distinct(lefts) && forall l :: l in lefts <==> l in adjacency
  {
    adjacency, lefts := map[], [];
    for i := 0 to |edges|
      invariant GroupsAll(edges, i, adjacency)
      invariant Distinct(lefts) && forall l :: l in lefts <==> l in adjacency
    {
      var l := edges[i].left;
      GroupOne(edges, i, adjacency);
      if l in adjacency {
        adjacency := adjacency[l := adjacency[l] + [i]];
      } else {
        adjacency, lefts := adjacency[l := [i]], lefts + [l];
      }
    }
  }

  lemma GroupOne(edges: seq<Edge>, n: nat, adjacency: Adjacency)
    requires n < |edges| && GroupsAll(edges, n, adjacency)
    ensures edges[n].left in adjacency ==>
              GroupsAll(edges, n + 1, adjacency[edges[n].left := adjacency[edges[n].left] + [n]])
    ensures edges[n].left !in adjacency ==> GroupsAll(edges, n + 1, adjacency[edges[n].left := [n]])
  {
    var left := edges[n].left;
    var known := if left in adjacency then adjacency[left] else [];
    var after := adjacency[left := known + [n]];
    assert [] + [n] == [n];
    forall l, i | l in after && i in after[l]
      ensures i < n + 1 && edges[i].left == l
    {
      if l == left && i != n {
        assert i in known;
      }
    }
    forall i | 0 <= i < n + 1
      ensures edges[i].left in after && i in after[edges[i].left]
    {
      if i == n {
        assert after[left][|known|] == n;
      } else {
        assert i in adjacency[edges[i].left];
      }
    }
  }

  /** Which position holds the edge that covers each right vertex. */
  ghost function AsMates(edges: seq<Edge>, choice: seq<Edge>): (m: Mates)
    requires IsDisjointChoice(edges, choice)
    ensures |m| == |choice|
    ensures forall r | r in m :: m[r] < |edges| && edges[m[r]] in choice && edges[m[r]].right == r
  {
    if choice == [] then map[]
    else
      var e := choice[|choice| - 1];
      assert e in choice && e in edges;
      var i: nat :| i < |edges| && edges[i] == e;
      var rest := AsMates(edges, choice[..|choice| - 1]);
      rest[e.right := i]
  }

  lemma ChoiceIsMatching(edges: seq<Edge>, adjacency: Adjacency, choice: seq<Edge>)
    requires GroupsAll(edges, |edges|, adjacency) && IsDisjointChoice(edges, choice)
    ensures IsMatching(edges, adjacency, AsMates(edges, choice))
  {
    var m := AsMates(edges, choice);
    forall r, s | r in m && s in m && r != s
      ensures edges[m[r]].left != edges[m[s]].left
    {
      var i :| 0 <= i < |choice| && choice[i] == edges[m[r]];
      var j :| 0 <= j < |choice| && choice[j] == edges[m[s]];
      assert i != j;
    }
  }

  /** The edges a matching uses, in no particular order. */
  method Values(edges: seq<Edge>, adjacency: Adjacency, mate: Mates) returns (result: seq<Edge>)
    requires IsMatching(edges, adjacency, mate)
    ensures IsDisjointChoice(edges, result) && |result| == |mate|
  {
    var keys := KeysInSomeOrder(mate);
    result := [];
    for k := 0 to |keys|
      invariant |result| == k && forall j | 0 <= j < k :: result[j] == edges[mate[keys[j]]]
    {
      result := result + [edges[mate[keys[k]]]];
    }
    DistinctSetSize(keys, mate.Keys);
  }

  /** A largest possible set of candidate lessons that can be taught at the same time. */
  method MaximumMatching(edges: seq<Edge>) returns (result: seq<Edge>)
    ensures IsDisjointChoice(edges, result)
    ensures forall other | IsDisjointChoice(edges, other) :: |other| <= |result|
  {
    var byTeacher, teachers := GroupByLeft(edges);
    var order := Shuffle(teachers);
    DistinctPermutation(teachers, order);
    SameElements(teachers, order);
    var matcher := new Matcher(edges, byTeacher);
    ghost var failed, dead := matcher.CoverAll(order);
    result := Values(edges, byTeacher, matcher.mate);
    forall other | IsDisjointChoice(edges, other)
      ensures |other| <= |result|
    {
      ChoiceIsMatching(edges, byTeacher, other);
      MaximumCardinality(edges, byTeacher, matcher.mate, dead, AsMates(edges, other));
    }
  }
}

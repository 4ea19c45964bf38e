/** Double lessons of the audience solver: what the tasks ask for, and what the lessons deliver. */
module DoubleDemand {
  import opened Model
  import opened Lessons
  import opened Ledger
  import opened AttemptState
  import opened Tasks

  /** The double lessons that cover the assignment. */
  function DoubleCredit(ps: seq<Placement>, id: Id): nat {
    if ps == [] then 0
    else DoubleCredit(ps[..|ps| - 1], id) + if ps[|ps| - 1].double && id in AssignmentIds(ps[|ps| - 1]) then 1 else 0
  }

  /** The double lessons that the tasks which cover the assignment ask for. */
  function DoublesAsked(specs: seq<Spec>, id: Id): int {
    if specs == [] then 0
    else DoublesAsked(specs[..|specs| - 1], id) + if id in specs[|specs| - 1].assignments then specs[|specs| - 1].doubles else 0
  }

  /** Delivered plus owed is what the tasks asked for. */
  ghost predicate DoublesKept(specs: seq<Spec>, b: Books<TaskKey>) {
    forall id: Id :: DoubleCredit(b.placements, id) + Owed(specs, b.doubles, id) == DoublesAsked(specs, id)
  }

  lemma DoubleCreditAppend(ps: seq<Placement>, p: Placement, id: Id)
    ensures DoubleCredit(ps + [p], id) == DoubleCredit(ps, id) + if p.double && id in AssignmentIds(p) then 1 else 0
  {
    assert (ps + [p])[..|ps|] == ps;
  }

  lemma LessonAssignments(problem: Problem, t: Spec, block: Id, periods: seq<Id>, double: bool, id: Id)
    requires Tidy(t)
    ensures var p := TaskLesson(problem, t, block, periods, double); (id in AssignmentIds(p) <==> id in t.assignments) && p.double == double
  {
  }

  /** Placing a lesson moves its double from what is owed to what is delivered, for every assignment it covers. */
  lemma LessonKeepsDoubles(problem: Problem, specs: seq<Spec>, b: Books<TaskKey>, t: Spec, block: Id, periods: seq<Id>, double: bool)
    requires DistinctKeys(specs) && t in specs && Tidy(t) && DoublesKept(specs, b)
    ensures DoublesKept(specs, Enter(b, TaskLesson(problem, t, block, periods, double), t.key))
  {
    var p := TaskLesson(problem, t, block, periods, double);
    var after := Enter(b, p, t.key);
    SameKey(specs, t);
    hide DoubleCredit, Owed, DoublesAsked, Tidy, DistinctKeys, AssignmentIds, TaskLesson;
    forall id: Id
      ensures DoubleCredit(after.placements, id) + Owed(specs, after.doubles, id) == DoublesAsked(specs, id)
    {
      DoubleCreditAppend(b.placements, p, id);
      LessonAssignments(problem, t, block, periods, double, id);
      OwedSpend(specs, b.doubles, t.key, t, 1, id);
      assert DoubleCredit(b.placements, id) + Owed(specs, b.doubles, id) == DoublesAsked(specs, id);
    }
  }

  lemma {:induction false} DoubleCreditRemove(ps: seq<Placement>, i: nat, id: Id)
    requires i < |ps|
    ensures DoubleCredit(ps, id) == DoubleCredit(ps[..i] + ps[i + 1..], id) + if ps[i].double && id in AssignmentIds(ps[i]) then 1 else 0
  {
    hide AssignmentIds;
    var shorter, last := ps[..|ps| - 1], ps[|ps| - 1];
    assert ps == shorter + [last];
    if i == |shorter| {
      assert ps[..i] + ps[i + 1..] == shorter;
    } else {
      DoubleCreditRemove(shorter, i, id);
      assert ps[..i] + ps[i + 1..] == (shorter[..i] + shorter[i + 1..]) + [last];
      DoubleCreditAppend(shorter[..i] + shorter[i + 1..], last, id);
    }
  }

  lemma {:induction false} DoubleCreditPermutation(s: seq<Placement>, t: seq<Placement>, id: Id)
    requires multiset(s) == multiset(t)
    ensures DoubleCredit(s, id) == DoubleCredit(t, id)
  {
    hide AssignmentIds;
    if s == [] {
      assert t == [];
    } else {
      var i := PickLast(s, t);
      DoubleCreditPermutation(s[..|s| - 1], t[..i] + t[i + 1..], id);
      DoubleCreditRemove(t, i, id);
    }
  }

  lemma DoublesPermutation(specs: seq<Spec>, b: Books<TaskKey>, qs: seq<Placement>)
    requires DoublesKept(specs, b) && multiset(qs) == multiset(b.placements)
    ensures DoublesKept(specs, b.(placements := qs))
  {
    hide DoubleCredit, Owed, DoublesAsked;
    forall id: Id
      ensures DoubleCredit(qs, id) == DoubleCredit(b.placements, id)
    {
      DoubleCreditPermutation(qs, b.placements, id);
    }
  }

  lemma {:induction false} AskedAtFirst(specs: seq<Spec>, doubles: map<TaskKey, int>, id: Id)
    requires forall t | t in specs :: Left(doubles, t.key) == t.doubles
    ensures Owed(specs, doubles, id) == DoublesAsked(specs, id)
  {
    if specs != [] {
      assert specs == specs[..|specs| - 1] + [specs[|specs| - 1]];
      AskedAtFirst(specs[..|specs| - 1], doubles, id);
    }
  }

  lemma StartsKept(specs: seq<Spec>, b: Books<TaskKey>)
    requires b.placements == [] && forall t | t in specs :: Left(b.doubles, t.key) == t.doubles
    ensures DoublesKept(specs, b)
  {
    forall id: Id
      ensures DoubleCredit(b.placements, id) + Owed(specs, b.doubles, id) == DoublesAsked(specs, id)
    {
      AskedAtFirst(specs, b.doubles, id);
    }
  }

  // ----- what the tasks ask for is what the assignment asks for

  lemma {:induction false} AskedAppend(a: seq<Spec>, b: seq<Spec>, id: Id)
    ensures DoublesAsked(a + b, id) == DoublesAsked(a, id) + DoublesAsked(b, id)
  {
    if b == [] {
      assert a + b == a;
    } else {
      assert (a + b)[..|a + b| - 1] == a + b[..|b| - 1];
      AskedAppend(a, b[..|b| - 1], id);
    }
  }

  lemma {:induction false} AskedByGroups(problem: Problem, groups: seq<Group>, id: Id)
    ensures DoublesAsked(GroupSpecs(problem, groups), id) == SharedDoubles(problem, groups, id)
  {
    hide Shares;
    if groups != [] {
      var rest, g := groups[..|groups| - 1], groups[|groups| - 1];
      AskedByGroups(problem, rest, id);
      if Shares(problem, g) {
        AskedAppend(GroupSpecs(problem, rest), [GroupSpec(g)], id);
        assert DoublesAsked([GroupSpec(g)], id) == if id in UniqueIds(g.assignments) then g.doubles else 0;
      }
    }
  }

  lemma {:induction false} AskedByRest(problem: Problem, order: seq<Id>, id: Id)
    requires WellFormed(problem) && (forall x | x in order :: x in Schedule(problem)) && Distinct(order)
    ensures DoublesAsked(RestSpecs(problem, order), id)
         == if id in order && Rest(problem, Schedule(problem)[id]) > 0 then RestDoubles(problem, Schedule(problem)[id]) else 0
  {
    ScheduleEntries(problem);
    hide Schedule, WellFormed, Rest, RestDoubles;
    if order != [] {
      var rest: seq<Id> := order[..|order| - 1];
      var last := order[|order| - 1];
      assert order == rest + [last];
      AskedByRest(problem, rest, id);
      var a := Schedule(problem)[last];
      if Rest(problem, a) > 0 {
        AskedAppend(RestSpecs(problem, rest), [RestSpec(problem, a)], id);
        assert DoublesAsked([RestSpec(problem, a)], id) == if id == last then RestDoubles(problem, a) else 0;
      }
      assert last !in rest;
    }
  }

  /** The groups claim no more than the assignment's double lessons, and leave the periods for the others. */
  predicate DoublesCanBeShared(problem: Problem, a: Assignment) {
    var shared := SharedDoubles(problem, problem.groups, a.id);
    shared <= a.doubles && 2 * (a.doubles - shared) <= a.weekly - SharedPeriods(problem, problem.groups, a.id)
  }

  /** The tasks ask for exactly the double lessons of the assignment, where that is possible. */
  lemma AllDoublesAsked(problem: Problem, specs: seq<Spec>, order: seq<Id>, id: Id)
    requires WellFormed(problem) && IsTaskList(problem, specs, order) && id in Schedule(problem) && DoublesCanBeShared(problem, Schedule(problem)[id])
    ensures DoublesAsked(specs, id) == Schedule(problem)[id].doubles
  {
    ScheduleEntries(problem);
    var shared, rest := GroupSpecs(problem, problem.groups), RestSpecs(problem, order);
    hide Schedule, WellFormed, GroupSpecs, RestSpecs, SharedDoubles, SharedPeriods, DoublesAsked;
    AskedAppend(shared, rest, id);
    AskedByGroups(problem, problem.groups, id);
    AskedByRest(problem, order, id);
  }

  /** Delivered plus owed is what the assignment asks for, whenever its double lessons can be shared. */
  lemma DoublesConserved(problem: Problem, specs: seq<Spec>, order: seq<Id>, b: Books<TaskKey>, id: Id)
    requires WellFormed(problem) && IsTaskList(problem, specs, order) && DoublesKept(specs, b)
    requires id in Schedule(problem) && DoublesCanBeShared(problem, Schedule(problem)[id])
    ensures DoubleCredit(b.placements, id) + Owed(specs, b.doubles, id) == Schedule(problem)[id].doubles
  {
    hide WellFormed, IsTaskList, Schedule, DoublesCanBeShared, DoubleCredit, Owed, DoublesAsked;
    AllDoublesAsked(problem, specs, order, id);
  }

  /** What is left of an assignment asks for as many double lessons as are wanted and fit. */
  lemma RestAsksForMost(problem: Problem, a: Assignment, d: int)
    requires Rest(problem, a) >= 0
    ensures 0 <= RestDoubles(problem, a) && 2 * RestDoubles(problem, a) <= Rest(problem, a)
    ensures RestDoubles(problem, a) > 0 ==> RestDoubles(problem, a) + SharedDoubles(problem, problem.groups, a.id) <= a.doubles
    ensures 0 <= d && d + SharedDoubles(problem, problem.groups, a.id) <= a.doubles && 2 * d <= Rest(problem, a) ==> d <= RestDoubles(problem, a)
  {
    hide SharedDoubles, SharedPeriods;
  }

  /** Where there are no groups, every assignment that the periods allow gets its own double lessons. */
  lemma WithoutGroups(problem: Problem, a: Assignment)
    requires problem.groups == []
    ensures DoublesCanBeShared(problem, a) <==> 2 * a.doubles <= a.weekly
  {
  }
}

/** The books of an ordinary solving attempt: which lessons may be placed and what they leave to be placed. */
module Ledger {
  import opened Model
  import opened Lessons
  import opened AttemptState

  /** A lesson of assignment `a` (`place`, `placementFromAssignment`). */
  function LessonOf(problem: Problem, a: Assignment, periods: seq<Id>, double: bool): Placement {
    Placement(a.id, [], NO_ID, NO_ID, problem.workspace, problem.year, problem.term, a.teacher, a.cohort, [],
              a.cohortSubject, a.subject, [], a.resource, periods, double)
  }

  /** Identifiers are not blank and not shared, as database keys are not. */
  ghost predicate WellFormed(problem: Problem) {
    && (forall i, j | 0 <= i < j < |problem.periods| :: problem.periods[i].id != problem.periods[j].id)
    && DistinctIds(problem.assignments)
    && (forall a | a in problem.assignments :: a.id != NO_ID)
    && NO_ID !in problem.cohorts
  }

  function OnlySchedulable(problem: Problem, list: seq<Assignment>): seq<Assignment> {
    if list == [] then []
    else
      var rest := OnlySchedulable(problem, list[..|list| - 1]);
      if Schedulable(problem, list[|list| - 1]) then rest + [list[|list| - 1]] else rest
  }

  /** The assignments a solving attempt works on. */
  function Schedule(problem: Problem): map<Id, Assignment> {
    AssignmentById(OnlySchedulable(problem, problem.assignments))
  }

  predicate IsDoubleOf(p: Placement, id: Id) {
    p.assignment == id && p.double
  }

  function DoubleCount(ps: seq<Placement>, id: Id): nat {
    if ps == [] then 0
    else DoubleCount(ps[..|ps| - 1], id) + if IsDoubleOf(ps[|ps| - 1], id) then 1 else 0
  }

  /** The period is open for the assignment, whatever else is scheduled. */
  predicate OpenCell(problem: Problem, a: Assignment, per: Id) {
    var periods := PeriodById(problem.periods);
    && per in periods && Usable(periods[per])
    && !TeacherBlocked(problem, a.teacher, per) && !CohortBlocked(problem, a.cohort, per)
    && (a.resource != NO_ID ==> OpenResource(problem, a.resource, per))
  }

  predicate Adjoining(problem: Problem, first: Id, second: Id) {
    var periods := PeriodById(problem.periods);
    && first in periods && second in periods
    && periods[first].day == periods[second].day && periods[second].index == periods[first].index + 1
  }

  /** The shape of a lesson: one period, or two adjoining ones. */
  predicate WellShaped(problem: Problem, periods: seq<Id>, double: bool) {
    if double then |periods| == 2 && Adjoining(problem, periods[0], periods[1]) else |periods| == 1
  }

  /** A lesson as the solver makes them. */
  ghost predicate LegalLesson(problem: Problem, assignments: map<Id, Assignment>, p: Placement) {
    && p.assignment in assignments
    && var a := assignments[p.assignment];
       && p == LessonOf(problem, a, p.periods, p.double)
       && WellShaped(problem, p.periods, p.double)
       && LocalTeacher(problem, a.teacher) && LocalCohort(problem, a.cohort)
       && forall per | per in p.periods :: OpenCell(problem, a, per)
  }

  /** Legal lessons that do not get in each other's way. */
  ghost predicate Compatible(problem: Problem, assignments: map<Id, Assignment>, ps: seq<Placement>) {
    && (forall p | p in ps :: LegalLesson(problem, assignments, p))
    && AtMostOnce(Bookings(TeacherUse, ps)) && AtMostOnce(Bookings(CohortUse, ps))
    && (forall x :: Bookings(ResourceUse, ps)[x] <= Capacity(problem, x.0))
  }

  /** Placed plus remaining is what was asked for. */
  ghost predicate Balanced(assignments: map<Id, Assignment>, b: Books<Id>) {
    && b.remaining.Keys == assignments.Keys && b.doubles.Keys == assignments.Keys
    && forall id | id in assignments ::
         && b.remaining[id] + Credit(b.placements, id) == assignments[id].weekly && b.remaining[id] >= 0
         && b.doubles[id] + DoubleCount(b.placements, id) == assignments[id].doubles && b.doubles[id] >= 0
  }

  /** The books of an attempt: compatible lessons, and a balance for every assignment. */
  ghost predicate Kept(problem: Problem, b: Books<Id>) {
    Compatible(problem, Schedule(problem), b.placements) && Balanced(Schedule(problem), b)
  }

  /** Room is kept for every double lesson that is still to come. */
  ghost predicate Reserved(b: Books<Id>) {
    forall id | id in b.remaining :: b.remaining[id] >= 2 * Left(b.doubles, id)
  }

  // ----- the assignments of an attempt

  lemma {:induction false} OnlySchedulableElements(problem: Problem, list: seq<Assignment>)
    ensures forall a :: a in OnlySchedulable(problem, list) <==> a in list && Schedulable(problem, a)
  {
    if list != [] {
      assert list == list[..|list| - 1] + [list[|list| - 1]];
      OnlySchedulableElements(problem, list[..|list| - 1]);
    }
  }

  lemma {:induction false} OnlySchedulableDistinct(problem: Problem, list: seq<Assignment>)
    requires DistinctIds(list)
    ensures DistinctIds(OnlySchedulable(problem, list))
  {
    if list != [] {
      var rest, last := list[..|list| - 1], list[|list| - 1];
      OnlySchedulableDistinct(problem, rest);
      OnlySchedulableElements(problem, rest);
      var only := OnlySchedulable(problem, rest);
      forall i | 0 <= i < |only|
        ensures only[i].id != last.id
      {
        assert only[i] in rest;
        var j :| 0 <= j < |rest| && rest[j] == only[i];
        assert list[j] == only[i] && list[|rest|] == last;
      }
    }
  }

  lemma ScheduleEntries(problem: Problem)
    requires WellFormed(problem)
    ensures forall id | id in Schedule(problem) :: Schedule(problem)[id].id == id && id != NO_ID && Schedule(problem)[id] in problem.assignments
                                              && Schedulable(problem, Schedule(problem)[id])
    ensures forall a | a in problem.assignments && Schedulable(problem, a) :: a.id in Schedule(problem) && Schedule(problem)[a.id] == a
  {
    OnlySchedulableElements(problem, problem.assignments);
    OnlySchedulableDistinct(problem, problem.assignments);
    AssignmentByIdEntries(OnlySchedulable(problem, problem.assignments));
  }

  // ----- one more lesson

  lemma DoubleCountAppend(ps: seq<Placement>, p: Placement, id: Id)
    ensures DoubleCount(ps + [p], id) == DoubleCount(ps, id) + if IsDoubleOf(p, id) then 1 else 0
  {
    assert (ps + [p])[..|ps|] == ps;
  }

  /** Nobody the lesson needs is busy in its periods. */
  ghost predicate Free(ps: seq<Placement>, p: Placement) {
    forall per | per in p.periods :: !Booked(TeacherUse, ps, p.teacher, per) && !Booked(CohortUse, ps, p.cohort, per)
  }

  ghost predicate ResourceLeft(problem: Problem, ps: seq<Placement>, p: Placement) {
    p.resource != NO_ID ==> forall per | per in p.periods :: Bookings(ResourceUse, ps)[(p.resource, per)] < Capacity(problem, p.resource)
  }

  lemma AddDisjoint(kind: Kind, ps: seq<Placement>, p: Placement)
    requires AtMostOnce(Bookings(kind, ps)) && Distinct(Keys(kind, p)) && Distinct(p.periods)
    requires forall k, per | k in Keys(kind, p) && per in p.periods :: !Booked(kind, ps, k, per)
    ensures AtMostOnce(Bookings(kind, ps + [p]))
  {
    BookingsAppend(kind, ps, p);
    AtMostOncePairs(Keys(kind, p), p.periods);
    forall k: Id, per: Id
      ensures !((k, per) in Bookings(kind, ps) && (k, per) in Pairs(Keys(kind, p), p.periods))
    {
      BookedIffCounted(kind, ps, k, per);
      PairsMember(Keys(kind, p), p.periods, k, per);
    }
    SumAtMostOnce(Bookings(kind, ps), Pairs(Keys(kind, p), p.periods));
  }

  lemma UsedOnce(p: Placement, x: (Id, Id))
    requires Distinct(p.periods)
    ensures Pairs(Keys(ResourceUse, p), p.periods)[x] <= 1
    ensures Pairs(Keys(ResourceUse, p), p.periods)[x] > 0 ==> x.0 == p.resource && p.resource != NO_ID && x.1 in p.periods
  {
    var keys := Keys(ResourceUse, p);
    assert Distinct(keys);
    AtMostOncePairs(keys, p.periods);
    assert x == (x.0, x.1);
    hide Pairs;
    PairsMember(keys, p.periods, x.0, x.1);
    assert Pairs(keys, p.periods)[x] <= 1;
  }

  lemma AddResource(problem: Problem, ps: seq<Placement>, p: Placement, x: (Id, Id))
    requires Bookings(ResourceUse, ps)[x] <= Capacity(problem, x.0)
    requires Distinct(p.periods) && ResourceLeft(problem, ps, p)
    ensures Bookings(ResourceUse, ps + [p])[x] <= Capacity(problem, x.0)
  {
    hide Bookings, Pairs, Capacity, Keys;
    assert x == (x.0, x.1);
    BookingsAppend(ResourceUse, ps, p);
    UsedOnce(p, x);
  }

  /** A legal lesson whose teacher, cohort and resource are free keeps the schedule compatible. */
  lemma PlaceKeepsCompatible(problem: Problem, assignments: map<Id, Assignment>, ps: seq<Placement>, p: Placement)
    requires WellFormed(problem) && Compatible(problem, assignments, ps) && LegalLesson(problem, assignments, p)
    requires Distinct(p.periods) && Free(ps, p) && ResourceLeft(problem, ps, p)
    ensures Compatible(problem, assignments, ps + [p])
  {
    hide LegalLesson, AtMostOnce, Bookings, Capacity, ResourceLeft;
    AddDisjoint(TeacherUse, ps, p);
    CohortKeys(problem, assignments, p);
    AddDisjoint(CohortUse, ps, p);
    forall x ensures Bookings(ResourceUse, ps + [p])[x] <= Capacity(problem, x.0) {
      AddResource(problem, ps, p, x);
    }
  }

  /** The solver's lessons occupy their one cohort, and cover their one assignment. */
  lemma CohortKeys(problem: Problem, assignments: map<Id, Assignment>, p: Placement)
    requires WellFormed(problem) && LegalLesson(problem, assignments, p)
    ensures Keys(CohortUse, p) == [p.cohort] && p.cohort != NO_ID
    ensures CohortIds(p) == [p.cohort]
  {
  }

  lemma EntryBalance(problem: Problem, b: Books<Id>, a: Assignment, periods: seq<Id>, double: bool, id: Id)
    requires a.id != NO_ID
    ensures var p := LessonOf(problem, a, periods, double);
            && Credit(b.placements + [p], id) == Credit(b.placements, id) + (if id == a.id then |periods| else 0)
            && DoubleCount(b.placements + [p], id) == DoubleCount(b.placements, id) + (if id == a.id && double then 1 else 0)
  {
    var p := LessonOf(problem, a, periods, double);
    assert AssignmentIds(p) == [a.id];
    hide Credit, DoubleCount, AssignmentIds;
    CreditAppend(b.placements, p, id);
    DoubleCountAppend(b.placements, p, id);
  }

  /** Entering a lesson of `a` into the books. */
  lemma PlaceKeepsBalanced(problem: Problem, assignments: map<Id, Assignment>, b: Books<Id>, a: Assignment, periods: seq<Id>, double: bool)
    requires Balanced(assignments, b)
    requires a.id in assignments && a.id != NO_ID && |periods| <= b.remaining[a.id] && (double ==> b.doubles[a.id] > 0)
    ensures Balanced(assignments, Enter(b, LessonOf(problem, a, periods, double), a.id))
  {
    hide Credit, DoubleCount;
    forall id | id in assignments
      ensures var p := LessonOf(problem, a, periods, double);
              && Credit(b.placements + [p], id) == Credit(b.placements, id) + (if id == a.id then |periods| else 0)
              && DoubleCount(b.placements + [p], id) == DoubleCount(b.placements, id) + (if id == a.id && double then 1 else 0)
    {
      EntryBalance(problem, b, a, periods, double, id);
    }
  }

  /** A free, legal lesson of an assignment with periods left keeps the books. */
  lemma PlaceKeeps(problem: Problem, b: Books<Id>, a: Assignment, periods: seq<Id>, double: bool)
    requires WellFormed(problem) && Kept(problem, b) && a.id in Schedule(problem) && Schedule(problem)[a.id] == a
    requires LegalLesson(problem, Schedule(problem), LessonOf(problem, a, periods, double)) && Distinct(periods)
    requires Free(b.placements, LessonOf(problem, a, periods, double)) && ResourceLeft(problem, b.placements, LessonOf(problem, a, periods, double))
    requires |periods| <= b.remaining[a.id] && (double ==> b.doubles[a.id] > 0)
    ensures Kept(problem, Enter(b, LessonOf(problem, a, periods, double), a.id))
  {
    ScheduleEntries(problem);
    PlaceKeepsCompatible(problem, Schedule(problem), b.placements, LessonOf(problem, a, periods, double));
    PlaceKeepsBalanced(problem, Schedule(problem), b, a, periods, double);
    hide Compatible, Balanced, Schedule;
  }

  // ----- the order of the lessons does not matter

  lemma {:induction false} BookingsRemove(kind: Kind, t: seq<Placement>, i: nat)
    requires i < |t|
    ensures Bookings(kind, t) == Bookings(kind, t[..i] + t[i + 1..]) + Pairs(Keys(kind, t[i]), t[i].periods)
  {
    hide Keys, Pairs;
    var n := |t| - 1;
    if i == n {
      assert t[..i] + t[i + 1..] == t[..n];
    } else {
      BookingsRemove(kind, t[..n], i);
      assert t[..n][..i] + t[..n][i + 1..] == (t[..i] + t[i + 1..])[..n - 1];
      assert (t[..i] + t[i + 1..])[n - 1] == t[n];
    }
  }

  lemma {:induction false} BookingsPermutation(kind: Kind, s: seq<Placement>, t: seq<Placement>)
    requires multiset(s) == multiset(t)
    ensures Bookings(kind, s) == Bookings(kind, t)
  {
    hide Keys, Pairs;
    if s == [] {
      assert t == [];
    } else {
      var i := PickLast(s, t);
      BookingsPermutation(kind, s[..|s| - 1], t[..i] + t[i + 1..]);
      BookingsRemove(kind, t, i);
    }
  }

  lemma {:induction false} CreditRemove(t: seq<Placement>, i: nat, id: Id)
    requires i < |t|
    ensures Credit(t, id) == Credit(t[..i] + t[i + 1..], id) + if id in AssignmentIds(t[i]) then |t[i].periods| else 0
  {
    hide AssignmentIds;
    var n := |t| - 1;
    if i == n {
      assert t[..i] + t[i + 1..] == t[..n];
    } else {
      CreditRemove(t[..n], i, id);
      assert t[..n][..i] + t[..n][i + 1..] == (t[..i] + t[i + 1..])[..n - 1];
      assert (t[..i] + t[i + 1..])[n - 1] == t[n];
    }
  }

  lemma {:induction false} DoubleCountRemove(t: seq<Placement>, i: nat, id: Id)
    requires i < |t|
    ensures DoubleCount(t, id) == DoubleCount(t[..i] + t[i + 1..], id) + if IsDoubleOf(t[i], id) then 1 else 0
  {
    hide IsDoubleOf;
    var n := |t| - 1;
    if i == n {
      assert t[..i] + t[i + 1..] == t[..n];
    } else {
      DoubleCountRemove(t[..n], i, id);
      assert t[..n][..i] + t[..n][i + 1..] == (t[..i] + t[i + 1..])[..n - 1];
      assert (t[..i] + t[i + 1..])[n - 1] == t[n];
    }
  }

  lemma {:induction false} CountsPermutation(s: seq<Placement>, t: seq<Placement>, id: Id)
    requires multiset(s) == multiset(t)
    ensures Credit(s, id) == Credit(t, id) && DoubleCount(s, id) == DoubleCount(t, id)
  {
    hide AssignmentIds, IsDoubleOf;
    if s == [] {
      assert t == [];
    } else {
      var i := PickLast(s, t);
      CountsPermutation(s[..|s| - 1], t[..i] + t[i + 1..], id);
      CreditRemove(t, i, id);
      DoubleCountRemove(t, i, id);
    }
  }

  /** Sorting the lessons changes nothing that matters. */
  lemma PermutationKeeps(problem: Problem, b: Books<Id>, sorted: seq<Placement>)
    requires multiset(sorted) == multiset(b.placements) && Kept(problem, b)
    ensures Kept(problem, b.(placements := sorted))
  {
    hide LegalLesson, Bookings, Credit, DoubleCount, AtMostOnce, Schedule;
    SameElements(b.placements, sorted);
    BookingsPermutation(TeacherUse, b.placements, sorted);
    BookingsPermutation(CohortUse, b.placements, sorted);
    BookingsPermutation(ResourceUse, b.placements, sorted);
    forall id: Id
      ensures Credit(b.placements, id) == Credit(sorted, id) && DoubleCount(b.placements, id) == DoubleCount(sorted, id)
    {
      CountsPermutation(b.placements, sorted, id);
    }
  }
}

/** How the load of a teacher, cohort or resource relates to what its assignments are credited with. */
module Loads {
  import opened Model
  import opened Lessons
  import opened Preflight

  /** The lesson teaches the one assignment `a`, with its teacher, cohort and resource. */
  ghost predicate Teaches(problem: Problem, p: Placement, a: Assignment) {
    && a in problem.assignments && Bookable(problem, a) && AssignmentIds(p) == [a.id]
    && p.teacher == a.teacher && p.cohort == a.cohort && p.resource == a.resource
  }

  ghost predicate IsPlain(problem: Problem, p: Placement) {
    exists a :: Teaches(problem, p, a)
  }

  /** Every lesson teaches exactly one counted assignment. */
  ghost predicate PlainLessons(problem: Problem, ps: seq<Placement>) {
    forall p | p in ps :: IsPlain(problem, p)
  }

  predicate LessonHits(target: Target, p: Placement) {
    match target
    case OfTeacher(t) => p.teacher == t
    case OfCohort(c) => p.cohort == c
    case OfResource(r) => p.resource == r && r != NO_ID
    case OfAll => true
  }

  /** The periods of the lessons that hit the target. */
  function Load(ps: seq<Placement>, target: Target): nat {
    if ps == [] then 0
    else Load(ps[..|ps| - 1], target) + if LessonHits(target, ps[|ps| - 1]) then |ps[|ps| - 1].periods| else 0
  }

  /** What the counted assignments that hit the target have been credited with. */
  ghost function CreditSum(problem: Problem, list: seq<Assignment>, ps: seq<Placement>, target: Target): int {
    if list == [] then 0
    else
      var a := list[|list| - 1];
      CreditSum(problem, list[..|list| - 1], ps, target) + if Bookable(problem, a) && Hits(target, a) then Credit(ps, a.id) else 0
  }

  lemma {:induction false} CreditSumAppend(problem: Problem, list: seq<Assignment>, ps: seq<Placement>, p: Placement, a: Assignment, target: Target)
    requires DistinctIds(list) && Bookable(problem, a) && AssignmentIds(p) == [a.id]
    requires forall b | b in list && b.id == a.id :: b == a
    ensures CreditSum(problem, list, ps + [p], target)
         == CreditSum(problem, list, ps, target) + if a in list && Hits(target, a) then |p.periods| else 0
  {
    hide Bookable, Credit, AssignmentIds, Hits;
    if list != [] {
      var rest, last := list[..|list| - 1], list[|list| - 1];
      assert list == rest + [last];
      CreditSumAppend(problem, rest, ps, p, a, target);
      CreditAppend(ps, p, last.id);
    }
  }

  lemma {:induction false} CreditSumEmpty(problem: Problem, list: seq<Assignment>, target: Target)
    ensures CreditSum(problem, list, [], target) == 0
  {
    if list != [] {
      CreditSumEmpty(problem, list[..|list| - 1], target);
    }
  }

  lemma SameId(list: seq<Assignment>, a: Assignment)
    requires DistinctIds(list) && a in list
    ensures forall b | b in list && b.id == a.id :: b == a
  {
    forall b | b in list && b.id == a.id
      ensures b == a
    {
      var i :| 0 <= i < |list| && list[i] == a;
      var j :| 0 <= j < |list| && list[j] == b;
      assert i == j;
    }
  }

  lemma LoadStep(problem: Problem, rest: seq<Placement>, p: Placement, target: Target)
    requires DistinctIds(problem.assignments) && IsPlain(problem, p)
    ensures CreditSum(problem, problem.assignments, rest + [p], target)
         == CreditSum(problem, problem.assignments, rest, target) + if LessonHits(target, p) then |p.periods| else 0
  {
    hide CreditSum, Bookable, AssignmentIds;
    var a :| Teaches(problem, p, a);
    SameId(problem.assignments, a);
    CreditSumAppend(problem, problem.assignments, rest, p, a, target);
    assert LessonHits(target, p) == Hits(target, a);
  }

  /** The load of a target is what its assignments are credited with: nothing is counted twice or lost. */
  lemma {:induction false} LoadIsCredit(problem: Problem, ps: seq<Placement>, target: Target)
    requires DistinctIds(problem.assignments) && PlainLessons(problem, ps)
    ensures Load(ps, target) == CreditSum(problem, problem.assignments, ps, target)
  {
    hide CreditSum, DistinctIds, IsPlain, LessonHits;
    if ps == [] {
      CreditSumEmpty(problem, problem.assignments, target);
    } else {
      var rest, p := ps[..|ps| - 1], ps[|ps| - 1];
      assert ps == rest + [p];
      assert p in ps && forall q | q in rest :: q in ps;
      LoadIsCredit(problem, rest, target);
      LoadStep(problem, rest, p, target);
    }
  }

  lemma {:induction false} CreditWithinDemand(problem: Problem, list: seq<Assignment>, ps: seq<Placement>, target: Target)
    requires forall a | a in list && Schedulable(problem, a) :: Credit(ps, a.id) <= a.weekly
    ensures CreditSum(problem, list, ps, target) <= Demand(problem, list, target, WeeklyPeriods)
  {
    hide Credit, Hits;
    if list != [] {
      var rest, last := list[..|list| - 1], list[|list| - 1];
      assert list == rest + [last];
      CreditWithinDemand(problem, rest, ps, target);
    }
  }

  lemma {:induction false} CreditMeetsDemand(problem: Problem, list: seq<Assignment>, ps: seq<Placement>, target: Target)
    requires forall a | a in list && Schedulable(problem, a) :: Credit(ps, a.id) == a.weekly
    ensures CreditSum(problem, list, ps, target) == Demand(problem, list, target, WeeklyPeriods)
  {
    hide Credit, Hits;
    if list != [] {
      var rest, last := list[..|list| - 1], list[|list| - 1];
      assert list == rest + [last];
      CreditMeetsDemand(problem, rest, ps, target);
    }
  }

  lemma {:induction false} TeacherLoadIsLoad(ps: seq<Placement>, t: Id)
    ensures TeacherLoad(ps, t) == Load(ps, OfTeacher(t))
  {
    if ps != [] {
      TeacherLoadIsLoad(ps[..|ps| - 1], t);
    }
  }

  // ----- a load of exclusive lessons is a number of periods

  /** The periods in which the key is booked. */
  ghost function BookedPeriods(kind: Kind, ps: seq<Placement>, k: Id): set<Id> {
    if ps == [] then {}
    else
      var p := ps[|ps| - 1];
      if k in Keys(kind, p) then BookedPeriods(kind, ps[..|ps| - 1], k) + (set per | per in p.periods) else BookedPeriods(kind, ps[..|ps| - 1], k)
  }

  lemma {:induction false} BookedPeriodsMember(kind: Kind, ps: seq<Placement>, k: Id)
    ensures forall per :: per in BookedPeriods(kind, ps, k) <==> Booked(kind, ps, k, per)
  {
    if ps != [] {
      var rest, p := ps[..|ps| - 1], ps[|ps| - 1];
      assert ps == rest + [p];
      BookedPeriodsMember(kind, rest, k);
      forall per
        ensures Booked(kind, ps, k, per) <==> Booked(kind, rest, k, per) || (k in Keys(kind, p) && per in p.periods)
      {
        assert forall q :: q in ps <==> q in rest || q == p;
      }
    }
  }

  /** The periods of the lessons that book the key, with repetitions. */
  ghost function KeyLoad(kind: Kind, ps: seq<Placement>, k: Id): nat {
    if ps == [] then 0
    else KeyLoad(kind, ps[..|ps| - 1], k) + if k in Keys(kind, ps[|ps| - 1]) then |ps[|ps| - 1].periods| else 0
  }

  lemma FreshPeriods(kind: Kind, rest: seq<Placement>, p: Placement, k: Id)
    requires NoClash(kind, rest + [p]) && k in Keys(kind, p)
    ensures Distinct(p.periods)
    ensures forall per | per in p.periods :: per !in BookedPeriods(kind, rest, k)
  {
    NoClashStep(kind, rest, p);
    BookedPeriodsMember(kind, rest, k);
  }

  /** Without clashes a key is booked in as many periods as its lessons have. */
  lemma {:induction false} ExclusiveLoad(kind: Kind, ps: seq<Placement>, k: Id)
    requires NoClash(kind, ps)
    ensures |BookedPeriods(kind, ps, k)| == KeyLoad(kind, ps, k)
  {
    hide NoClash, Keys;
    if ps != [] {
      var rest, p := ps[..|ps| - 1], ps[|ps| - 1];
      assert ps == rest + [p];
      NoClashRest(kind, rest, p);
      ExclusiveLoad(kind, rest, k);
      if k in Keys(kind, p) {
        var mine := set per | per in p.periods;
        FreshPeriods(kind, rest, p, k);
        DistinctSetSize(p.periods, mine);
        assert BookedPeriods(kind, rest, k) !! mine;
      }
    }
  }
}

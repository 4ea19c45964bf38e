/** `solveAudienceAttempt`'s steps: who attends a lesson, and what a placed lesson keeps. */
module Audience {
  import opened Model
  import opened Lessons
  import opened Ledger
  import opened AttemptState
  import opened Tasks

  // ----- the two kinds of audience

  /** A lesson that lists learners is for them; any other lesson is for every learner of its cohorts. */
  predicate Attends(problem: Problem, l: Id, p: Placement) {
    l in problem.learners && (l in p.learners || (p.learners == [] && problem.learners[l].cohort in CohortIds(p)))
  }

  /** No listed learner has a lesson while the whole cohort has one. */
  ghost predicate Apart(problem: Problem, ps: seq<Placement>) {
    forall l: Id, per: Id | l in problem.learners && Booked(LearnerUse, ps, l, per) :: !Booked(CohortUse, ps, problem.learners[l].cohort, per)
  }

  /** Nobody and nothing is in two places at once. */
  ghost predicate Exclusive(problem: Problem, ps: seq<Placement>) {
    && AtMostOnce(Bookings(TeacherUse, ps)) && AtMostOnce(Bookings(CohortUse, ps))
    && AtMostOnce(Bookings(LearnerUse, ps)) && AtMostOnce(Bookings(GroupUse, ps))
    && (forall x :: Bookings(ResourceUse, ps)[x] <= Capacity(problem, x.0))
    && Apart(problem, ps)
  }

  /** Whichever kind of audience their lessons have, no learner attends two lessons in one period. */
  lemma NobodyTwice(problem: Problem, ps: seq<Placement>, l: Id, i: nat, j: nat, per: Id)
    requires Exclusive(problem, ps) && i < j < |ps| && Attends(problem, l, ps[i]) && per in ps[i].periods && per in ps[j].periods
    ensures !Attends(problem, l, ps[j])
  {
    ExclusiveIffNoClash(CohortUse, ps);
    ExclusiveIffNoClash(LearnerUse, ps);
    var c := problem.learners[l].cohort;
    hide Bookings, AtMostOnce, CohortIds;
    forall k | k == i || k == j
      ensures ps[k].learners == [] && c in CohortIds(ps[k]) ==> Booked(CohortUse, ps, c, per)
      ensures l in ps[k].learners ==> Booked(LearnerUse, ps, l, per)
    {
      assert ps[k] in ps;
      assert ps[k].learners == [] ==> Keys(CohortUse, ps[k]) == CohortIds(ps[k]);
    }
    assert NoClash(CohortUse, ps) && NoClash(LearnerUse, ps);
    assert !(l in Keys(LearnerUse, ps[i]) && l in Keys(LearnerUse, ps[j]));
    assert !(c in Keys(CohortUse, ps[i]) && c in Keys(CohortUse, ps[j]));
  }

  /** Nobody the lesson needs is busy in its periods, whichever kind of audience the other lessons have. */
  ghost predicate FreeFor(problem: Problem, ps: seq<Placement>, p: Placement, per: Id) {
    && !Booked(TeacherUse, ps, p.teacher, per)
    && (forall g | g in Keys(GroupUse, p) :: !Booked(GroupUse, ps, g, per))
    && (forall c | c in Keys(CohortUse, p) :: !Booked(CohortUse, ps, c, per))
    && (forall l | l in p.learners :: !Booked(LearnerUse, ps, l, per))
    && (forall l: Id | l in problem.learners && Booked(LearnerUse, ps, l, per) :: problem.learners[l].cohort !in Keys(CohortUse, p))
    && (forall l | l in p.learners && l in problem.learners :: !Booked(CohortUse, ps, problem.learners[l].cohort, per))
  }

  ghost predicate FreeFrom(problem: Problem, ps: seq<Placement>, p: Placement) {
    forall per | per in p.periods :: FreeFor(problem, ps, p, per)
  }

  lemma BookedAppend(kind: Kind, ps: seq<Placement>, p: Placement, k: Id, per: Id)
    ensures Booked(kind, ps + [p], k, per) <==> Booked(kind, ps, k, per) || (k in Keys(kind, p) && per in p.periods)
  {
    hide Keys;
    assert forall q :: q in ps + [p] <==> q in ps || q == p;
  }

  lemma AddApart(problem: Problem, ps: seq<Placement>, p: Placement)
    requires Apart(problem, ps) && FreeFrom(problem, ps, p)
    ensures Apart(problem, ps + [p])
  {
    assert p.learners != [] ==> Keys(CohortUse, p) == [];
    assert Keys(LearnerUse, p) == p.learners;
    hide Keys, Booked;
    forall l: Id, per: Id | l in problem.learners && Booked(LearnerUse, ps + [p], l, per)
      ensures !Booked(CohortUse, ps + [p], problem.learners[l].cohort, per)
    {
      BookedAppend(LearnerUse, ps, p, l, per);
      BookedAppend(CohortUse, ps, p, problem.learners[l].cohort, per);
      if per in p.periods {
        assert FreeFor(problem, ps, p, per);
      }
    }
  }

  lemma KeysDistinct(p: Placement)
    requires Distinct(p.learners)
    ensures Distinct(Keys(TeacherUse, p)) && Distinct(Keys(CohortUse, p)) && Distinct(Keys(LearnerUse, p)) && Distinct(Keys(GroupUse, p))
    ensures Keys(TeacherUse, p) == [p.teacher] && Keys(LearnerUse, p) == p.learners
  {
  }

  /** A lesson whose people, group and resource are free keeps the schedule exclusive. */
  lemma AddExclusive(problem: Problem, ps: seq<Placement>, p: Placement)
    requires Exclusive(problem, ps) && FreeFrom(problem, ps, p) && ResourceLeft(problem, ps, p) && Distinct(p.periods) && Distinct(p.learners)
    ensures Exclusive(problem, ps + [p])
  {
    hide AtMostOnce, Bookings, Capacity, ResourceLeft, Keys, Booked, Apart;
    KeysDistinct(p);
    assert forall per | per in p.periods :: FreeFor(problem, ps, p, per);
    AddDisjoint(TeacherUse, ps, p);
    AddDisjoint(CohortUse, ps, p);
    AddDisjoint(LearnerUse, ps, p);
    AddDisjoint(GroupUse, ps, p);
    AddApart(problem, ps, p);
    forall x ensures Bookings(ResourceUse, ps + [p])[x] <= Capacity(problem, x.0) {
      AddResource(problem, ps, p, x);
    }
  }

  // ----- canPlaceTask

  predicate CohortHasLearner(problem: Problem, o: Occupancy, c: Id, per: Id) {
    exists l | l in problem.learners :: problem.learners[l].cohort == c && (l, per) in o.learners
  }

  predicate FreeCohort(problem: Problem, o: Occupancy, t: Spec, c: Id, per: Id) {
    (c, per) !in o.cohorts && (t.learners == [] ==> !CohortHasLearner(problem, o, c, per))
  }

  /** The period is open for the task, whatever else is scheduled. */
  predicate OpenFor(problem: Problem, t: Spec, per: Id) {
    var periods := PeriodById(problem.periods);
    && per in periods && Usable(periods[per]) && !TeacherBlocked(problem, t.teacher, per)
    && (forall c | c in t.cohorts :: !CohortBlocked(problem, c, per))
    && (t.resource != NO_ID ==> OpenResource(problem, t.resource, per))
  }

  predicate FreeTaskCell(problem: Problem, o: Occupancy, t: Spec, per: Id) {
    && OpenFor(problem, t, per) && (t.teacher, per) !in o.teachers
    && (t.group != NO_ID ==> (t.group, per) !in o.groups)
    && (forall c | c in t.cohorts :: FreeCohort(problem, o, t, c, per))
    && (forall l | l in t.learners :: (l, per) !in o.learners)
    && (t.resource != NO_ID ==> o.resources[(t.resource, per)] < Capacity(problem, t.resource))
  }

  /** The task's teacher, cohorts and learners belong to the workspace. */
  predicate LocalPeople(problem: Problem, t: Spec) {
    && LocalTeacher(problem, t.teacher) && (forall c | c in t.cohorts :: LocalCohort(problem, c))
    && forall l | l in t.learners :: LocalLearner(problem, l)
  }

  predicate CanPlaceTask(problem: Problem, o: Occupancy, t: Spec, periods: seq<Id>) {
    LocalPeople(problem, t) && forall per | per in periods :: FreeTaskCell(problem, o, t, per)
  }

  /** The listed learners belong to the cohorts of the task, as the preflight checks. */
  ghost predicate MembersOfCohorts(problem: Problem, t: Spec) {
    forall l | l in t.learners && l in problem.learners :: problem.learners[l].cohort in t.cohorts || problem.learners[l].cohort == NO_ID
  }

  /** No lesson is for the blank cohort. */
  lemma NoBlankCohort(ps: seq<Placement>, per: Id)
    ensures !Booked(CohortUse, ps, NO_ID, per)
  {
    hide UniqueIds;
  }

  lemma TaskKeys(problem: Problem, t: Spec, block: Id, periods: seq<Id>, double: bool)
    requires Tidy(t)
    ensures var p := TaskLesson(problem, t, block, periods, double);
            && (forall c | c in Keys(CohortUse, p) :: c in t.cohorts && t.learners == [])
            && (forall g | g in Keys(GroupUse, p) :: g == t.group && t.group != NO_ID)
  {
    hide UniqueIds;
  }

  lemma CellIsFree(problem: Problem, o: Occupancy, ps: seq<Placement>, t: Spec, block: Id, periods: seq<Id>, double: bool, per: Id)
    requires Mirrors(o, ps) && Tidy(t) && MembersOfCohorts(problem, t) && FreeTaskCell(problem, o, t, per)
    ensures FreeFor(problem, ps, TaskLesson(problem, t, block, periods, double), per)
  {
    var p := TaskLesson(problem, t, block, periods, double);
    TaskKeys(problem, t, block, periods, double);
    NoBlankCohort(ps, per);
    hide Keys, Booked, Bookings, OpenFor, Capacity, Tidy;
    forall c | c in Keys(CohortUse, p)
      ensures !Booked(CohortUse, ps, c, per)
      ensures forall l: Id | l in problem.learners && Booked(LearnerUse, ps, l, per) :: problem.learners[l].cohort != c
    {
      assert FreeCohort(problem, o, t, c, per);
    }
    forall l | l in p.learners && l in problem.learners
      ensures !Booked(CohortUse, ps, problem.learners[l].cohort, per)
    {
      if problem.learners[l].cohort in t.cohorts {
        assert FreeCohort(problem, o, t, problem.learners[l].cohort, per);
      }
    }
  }

  /** What `canPlaceTask` approves is free for both kinds of audience. */
  lemma CanPlaceIsFree(problem: Problem, o: Occupancy, ps: seq<Placement>, t: Spec, block: Id, periods: seq<Id>, double: bool)
    requires Mirrors(o, ps) && Tidy(t) && MembersOfCohorts(problem, t) && CanPlaceTask(problem, o, t, periods)
    ensures FreeFrom(problem, ps, TaskLesson(problem, t, block, periods, double))
    ensures ResourceLeft(problem, ps, TaskLesson(problem, t, block, periods, double))
  {
    var p := TaskLesson(problem, t, block, periods, double);
    forall per | per in periods
      ensures FreeFor(problem, ps, p, per)
      ensures p.resource != NO_ID ==> Bookings(ResourceUse, ps)[(p.resource, per)] < Capacity(problem, p.resource)
    {
      assert FreeTaskCell(problem, o, t, per);
      hide FreeFor, Tidy, Bookings, Shows;
      CellIsFree(problem, o, ps, t, block, periods, double, per);
    }
  }

  // ----- lessons at the same time

  /** Two lessons can happen at the same time: different people and groups, whichever kind of audience they have. */
  ghost predicate Together(problem: Problem, p: Placement, q: Placement) {
    && p.teacher != q.teacher
    && (forall g | g in Keys(GroupUse, p) :: g !in Keys(GroupUse, q))
    && (forall c | c in Keys(CohortUse, p) :: c !in Keys(CohortUse, q))
    && (forall l | l in p.learners :: l !in q.learners)
    && (forall l | l in p.learners && l in problem.learners :: problem.learners[l].cohort !in Keys(CohortUse, q))
    && (forall l | l in q.learners && l in problem.learners :: problem.learners[l].cohort !in Keys(CohortUse, p))
  }

  /** How many of the lessons use the resource. */
  function Takers(lessons: seq<Placement>, r: Id): nat {
    if lessons == [] then 0 else (if lessons[0].resource == r then 1 else 0) + Takers(lessons[1..], r)
  }

  /** Every resource has room for all the lessons of the round at once. */
  ghost predicate Room(problem: Problem, ps: seq<Placement>, lessons: seq<Placement>, periods: seq<Id>) {
    forall r: Id, per | r != NO_ID && per in periods :: Bookings(ResourceUse, ps)[(r, per)] + Takers(lessons, r) <= Capacity(problem, r)
  }

  /** Lessons of one round: the same periods for all of them. */
  ghost predicate SamePeriods(lessons: seq<Placement>, periods: seq<Id>) {
    forall p | p in lessons :: p.periods == periods && Distinct(p.learners)
  }

  lemma StillFreeFrom(problem: Problem, ps: seq<Placement>, p: Placement, q: Placement)
    requires FreeFrom(problem, ps, q) && Together(problem, p, q)
    ensures FreeFrom(problem, ps + [p], q)
  {
    assert Keys(TeacherUse, p) == [p.teacher] && Keys(LearnerUse, p) == p.learners;
    hide Keys, Booked;
    forall per | per in q.periods
      ensures FreeFor(problem, ps + [p], q, per)
    {
      assert FreeFor(problem, ps, q, per);
      forall kind: Kind, k: Id
        ensures Booked(kind, ps + [p], k, per) <==> Booked(kind, ps, k, per) || (k in Keys(kind, p) && per in p.periods)
      {
        BookedAppend(kind, ps, p, k, per);
      }
    }
  }

  /** A lesson takes one unit of its resource in each of its periods. */
  lemma TakesOne(ps: seq<Placement>, p: Placement, r: Id, per: Id)
    requires r != NO_ID && Distinct(p.periods)
    ensures Bookings(ResourceUse, ps + [p])[(r, per)] == Bookings(ResourceUse, ps)[(r, per)] + if p.resource == r && per in p.periods then 1 else 0
  {
    hide Bookings, Pairs;
    BookingsAppend(ResourceUse, ps, p);
    UsedOnce(p, (r, per));
    PairsMember(Keys(ResourceUse, p), p.periods, r, per);
  }

  /** Where there is room for all, there is room for the first, and then for the rest. */
  lemma RoomStep(problem: Problem, ps: seq<Placement>, lessons: seq<Placement>, periods: seq<Id>)
    requires lessons != [] && lessons[0].periods == periods && Distinct(periods) && Room(problem, ps, lessons, periods)
    ensures ResourceLeft(problem, ps, lessons[0]) && Room(problem, ps + [lessons[0]], lessons[1..], periods)
  {
    hide Bookings, Capacity;
    forall r: Id, per | r != NO_ID && per in periods
      ensures Bookings(ResourceUse, ps + [lessons[0]])[(r, per)] + Takers(lessons[1..], r) <= Capacity(problem, r)
    {
      TakesOne(ps, lessons[0], r, per);
    }
  }

  /** A round takes as many units of a resource as it has lessons that use it. */
  lemma {:induction false} RoundTakes(ps: seq<Placement>, lessons: seq<Placement>, periods: seq<Id>, r: Id, per: Id)
    requires SamePeriods(lessons, periods) && Distinct(periods) && r != NO_ID && per in periods
    ensures Bookings(ResourceUse, ps + lessons)[(r, per)] == Bookings(ResourceUse, ps)[(r, per)] + Takers(lessons, r)
    decreases |lessons|
  {
    hide Bookings;
    if lessons == [] {
      assert ps + lessons == ps;
    } else {
      var first, rest := lessons[0], lessons[1..];
      assert first in lessons && forall p | p in rest :: p in lessons;
      TakesOne(ps, first, r, per);
      RoundTakes(ps + [first], rest, periods, r, per);
      assert ps + [first] + rest == ps + lessons;
    }
  }

  ghost predicate AllTogether(problem: Problem, lessons: seq<Placement>) {
    forall i, j | 0 <= i < j < |lessons| :: Together(problem, lessons[i], lessons[j])
  }

  /** Lessons that were each free beforehand keep the schedule exclusive exactly when they can happen together and every resource
      has room for all of them. */
  lemma {:induction false} RoundIsExclusive(problem: Problem, ps: seq<Placement>, lessons: seq<Placement>, periods: seq<Id>)
    requires Exclusive(problem, ps) && SamePeriods(lessons, periods) && Distinct(periods) && periods != []
    requires forall p | p in lessons :: FreeFrom(problem, ps, p)
    ensures Exclusive(problem, ps + lessons) <==> AllTogether(problem, lessons) && Room(problem, ps, lessons, periods)
  {
    hide Exclusive, FreeFrom, Together, Room;
    if AllTogether(problem, lessons) && Room(problem, ps, lessons, periods) {
      RoundKeeps(problem, ps, lessons, periods);
    }
    if Exclusive(problem, ps + lessons) {
      forall i, j | 0 <= i < j < |lessons|
        ensures Together(problem, lessons[i], lessons[j])
      {
        assert lessons[i] in lessons && lessons[j] in lessons;
        ExclusiveTogether(problem, ps + lessons, |ps| + i, |ps| + j, periods[0]);
      }
      ExclusiveRoom(problem, ps, lessons, periods);
    }
  }

  lemma ExclusiveRoom(problem: Problem, ps: seq<Placement>, lessons: seq<Placement>, periods: seq<Id>)
    requires Exclusive(problem, ps + lessons) && SamePeriods(lessons, periods) && Distinct(periods)
    ensures Room(problem, ps, lessons, periods)
  {
    hide Bookings, Capacity, AtMostOnce, Apart;
    forall r: Id, per | r != NO_ID && per in periods
      ensures Bookings(ResourceUse, ps)[(r, per)] + Takers(lessons, r) <= Capacity(problem, r)
    {
      RoundTakes(ps, lessons, periods, r, per);
      assert Bookings(ResourceUse, ps + lessons)[(r, per)] <= Capacity(problem, (r, per).0);
    }
  }

  lemma {:induction false} RoundKeeps(problem: Problem, ps: seq<Placement>, lessons: seq<Placement>, periods: seq<Id>)
    requires Exclusive(problem, ps) && SamePeriods(lessons, periods) && Distinct(periods)
    requires forall p | p in lessons :: FreeFrom(problem, ps, p)
    requires AllTogether(problem, lessons) && Room(problem, ps, lessons, periods)
    ensures Exclusive(problem, ps + lessons)
    decreases |lessons|
  {
    hide Exclusive, FreeFrom, Together, ResourceLeft, Room;
    if lessons == [] {
      assert ps + lessons == ps;
    } else {
      var first, rest := lessons[0], lessons[1..];
      assert first in lessons && forall p | p in rest :: p in lessons;
      RoomStep(problem, ps, lessons, periods);
      AddExclusive(problem, ps, first);
      forall p | p in rest
        ensures FreeFrom(problem, ps + [first], p)
      {
        var j :| 0 <= j < |rest| && rest[j] == p;
        assert lessons[j + 1] == p;
        StillFreeFrom(problem, ps, first, p);
      }
      RoundKeeps(problem, ps + [first], rest, periods);
      assert ps + [first] + rest == ps + lessons;
    }
  }

  lemma ExclusiveTogether(problem: Problem, ps: seq<Placement>, i: nat, j: nat, per: Id)
    requires Exclusive(problem, ps) && i < j < |ps| && per in ps[i].periods && per in ps[j].periods
    ensures Together(problem, ps[i], ps[j])
  {
    ExclusiveIffNoClash(TeacherUse, ps);
    ExclusiveIffNoClash(CohortUse, ps);
    ExclusiveIffNoClash(LearnerUse, ps);
    ExclusiveIffNoClash(GroupUse, ps);
    hide Bookings, AtMostOnce;
    var p, q := ps[i], ps[j];
    assert p.teacher in Keys(TeacherUse, p) && q.teacher in Keys(TeacherUse, q);
    assert Keys(LearnerUse, p) == p.learners && Keys(LearnerUse, q) == q.learners;
    hide Keys;
    assert NoClash(TeacherUse, ps) && NoClash(CohortUse, ps) && NoClash(LearnerUse, ps) && NoClash(GroupUse, ps);
    CrossTogether(problem, ps, p, q, per);
    CrossTogether(problem, ps, q, p, per);
  }

  lemma CrossTogether(problem: Problem, ps: seq<Placement>, p: Placement, q: Placement, per: Id)
    requires Apart(problem, ps) && p in ps && q in ps && per in p.periods && per in q.periods
    ensures forall l | l in p.learners && l in problem.learners :: problem.learners[l].cohort !in Keys(CohortUse, q)
  {
    assert Keys(LearnerUse, p) == p.learners;
    hide Keys;
    forall l | l in p.learners && l in problem.learners
      ensures problem.learners[l].cohort !in Keys(CohortUse, q)
    {
      assert Booked(LearnerUse, ps, l, per);
    }
  }
}

/** Two small problems at the edges of the ordinary solver: one that the preflight rejects although it can be solved, and one whose
    double lessons the validator does not miss. */
module OrdinaryGap {
  import opened Model
  import opened Lessons
  import opened Ledger
  import opened Validator
  import opened SmallWeek
  import Necessity
  import Preflight

  function Course(weekly: int, doubles: nat): Assignment {
    Assignment(1, 1, 1, 1, 1, 1, 1, 1, NO_ID, weekly, doubles, true, true)
  }

  /** One teacher, one cohort, and one assignment for the two periods of the week. */
  function Small(weekly: int, doubles: nat, unavailable: set<Id>, coverage: bool): Problem {
    Problem(1, 1, 1, [MORNING, NOON], map[1 := Teacher(1, 1, 0, {}, {})], map[1 := Cohort(1, 1, unavailable)], map[], map[],
            [Course(weekly, doubles)], [], [], {(1, 1)}, coverage, [])
  }

  /** A single lesson of the course. */
  function LessonAt(problem: Problem, weekly: int, doubles: nat, per: Id): Placement {
    LessonOf(problem, Course(weekly, doubles), [per], false)
  }

  /** A single lesson in each of the listed periods. */
  function LessonsAt(problem: Problem, weekly: int, doubles: nat, pers: seq<Id>): (r: seq<Placement>)
    ensures |r| == |pers|
  {
    seq(|pers|, i requires 0 <= i < |pers| => LessonAt(problem, weekly, doubles, pers[i]))
  }

  lemma TheCourse(weekly: int, doubles: nat, unavailable: set<Id>, coverage: bool)
    requires weekly > 0
    ensures var problem := Small(weekly, doubles, unavailable, coverage);
            && Schedule(problem) == map[1 := Course(weekly, doubles)] && AssignmentById(problem.assignments) == map[1 := Course(weekly, doubles)]
            && WellFormed(problem) && Necessity.DistinctSlots(problem) && Schedulable(problem, Course(weekly, doubles))
  {
    var problem := Small(weekly, doubles, unavailable, coverage);
    var list := [Course(weekly, doubles)];
    assert list[..0] == [];
    assert AssignmentById(list) == map[1 := Course(weekly, doubles)];
    assert OnlySchedulable(problem, list) == list;
  }

  lemma LessonIsSound(weekly: int, doubles: nat, unavailable: set<Id>, coverage: bool, per: Id)
    requires weekly > 0 && (per == 1 || per == 2) && per !in unavailable
    ensures var problem := Small(weekly, doubles, unavailable, coverage); SoundLesson(problem, LessonAt(problem, weekly, doubles, per))
  {
    var problem := Small(weekly, doubles, unavailable, coverage);
    var p := LessonAt(problem, weekly, doubles, per);
    TheCourse(weekly, doubles, unavailable, coverage);
    TheWeek(problem);
    assert AssignmentIds(p) == [1] && CohortIds(p) == [1];
    hide AssignmentById, PeriodById, Schedule, UsablePeriods, WellFormed, AssignmentIds, CohortIds;
    assert OpenPeriod(problem, p, per);
    assert LocalCohort(problem, 1) && QualifiedTeacher(problem, p) && Counted(problem, p) && AuthorizedCover(problem, p, 1);
  }

  lemma {:induction false} LessonsCount(problem: Problem, weekly: int, doubles: nat, pers: seq<Id>)
    ensures var ps := LessonsAt(problem, weekly, doubles, pers);
            && Credit(ps, 1) == |pers| && TeacherLoad(ps, 1) == |pers| && DoubleCount(ps, 1) == 0
            && forall x :: Bookings(ResourceUse, ps)[x] == 0
  {
    var ps := LessonsAt(problem, weekly, doubles, pers);
    if pers != [] {
      var rest: seq<Id> := pers[..|pers| - 1];
      LessonsCount(problem, weekly, doubles, rest);
      assert ps[..|ps| - 1] == LessonsAt(problem, weekly, doubles, rest);
      var last := ps[|ps| - 1];
      assert AssignmentIds(last) == [1] && Keys(ResourceUse, last) == [] && last.periods == [pers[|pers| - 1]];
      forall x
        ensures Pairs(Keys(ResourceUse, last), last.periods)[x] == 0
      {
        PairsCount(Keys(ResourceUse, last), last.periods, x);
      }
      hide AssignmentIds, Keys, Pairs;
    }
  }

  lemma NoLessonsClash(problem: Problem, weekly: int, doubles: nat, pers: seq<Id>)
    requires Distinct(pers)
    ensures var ps := LessonsAt(problem, weekly, doubles, pers);
            NoClash(TeacherUse, ps) && NoClash(CohortUse, ps) && NoClash(LearnerUse, ps) && NoClash(GroupUse, ps)
  {
    var ps := LessonsAt(problem, weekly, doubles, pers);
    forall i, j, per | 0 <= i < j < |ps| && per in ps[i].periods
      ensures per !in ps[j].periods
    {
      assert pers[i] != pers[j];
    }
    forall kind: Kind, p | p in ps
      ensures |Keys(kind, p)| <= 1 && |p.periods| == 1
    {
    }
    hide Keys;
  }

  lemma AllSound(weekly: int, doubles: nat, unavailable: set<Id>, coverage: bool, pers: seq<Id>)
    requires weekly > 0 && forall per | per in pers :: (per == 1 || per == 2) && per !in unavailable
    ensures var problem := Small(weekly, doubles, unavailable, coverage);
            forall p | p in LessonsAt(problem, weekly, doubles, pers) :: SoundLesson(problem, p)
  {
    var problem := Small(weekly, doubles, unavailable, coverage);
    var ps := LessonsAt(problem, weekly, doubles, pers);
    hide SoundLesson, Small, LessonAt;
    forall p | p in ps
      ensures SoundLesson(problem, p)
    {
      var i :| 0 <= i < |ps| && ps[i] == p;
      assert pers[i] in pers;
      LessonIsSound(weekly, doubles, unavailable, coverage, pers[i]);
    }
  }

  lemma AllCountsFit(weekly: int, doubles: nat, unavailable: set<Id>, coverage: bool, ps: seq<Placement>)
    requires weekly <= 2 && Credit(ps, 1) == weekly && TeacherLoad(ps, 1) == weekly
    ensures var problem := Small(weekly, doubles, unavailable, coverage);
            && (forall a | a in problem.assignments && Mandated(problem, a) :: Credit(ps, a.id) == a.weekly)
            && (forall t | t in problem.teachers :: TeacherLoad(ps, t) <= WorkloadCap(problem, problem.teachers[t]))
            && problem.blocks == [] && problem.fullCoverage == coverage
  {
    TheWeek(Small(weekly, doubles, unavailable, coverage));
    hide Credit, TeacherLoad, UsablePeriods, AvailableCount, PeriodById;
  }

  /** Single lessons at the right times are a valid timetable, if the coverage asked for is met. */
  lemma LessonsAreValid(weekly: int, doubles: nat, unavailable: set<Id>, coverage: bool, pers: seq<Id>)
    requires weekly == |pers| && 0 < |pers| <= 2 && Distinct(pers)
    requires forall per | per in pers :: (per == 1 || per == 2) && per !in unavailable
    requires coverage ==> forall per | per == 1 || per == 2 :: per in pers || per in unavailable
    ensures var problem := Small(weekly, doubles, unavailable, coverage); ValidSchedule(problem, LessonsAt(problem, weekly, doubles, pers))
  {
    var problem := Small(weekly, doubles, unavailable, coverage);
    var ps := LessonsAt(problem, weekly, doubles, pers);
    AllSound(weekly, doubles, unavailable, coverage, pers);
    NoLessonsClash(problem, weekly, doubles, pers);
    LessonsCount(problem, weekly, doubles, pers);
    AllCountsFit(weekly, doubles, unavailable, coverage, ps);
    if coverage {
      WeekIsCovered(weekly, doubles, unavailable, pers);
    }
    hide Small, SoundLesson, NoClash, Bookings, Credit, TeacherLoad, WorkloadCap, DoubleCount, LessonsAt, Covered, Mandated;
  }

  lemma WeekIsCovered(weekly: int, doubles: nat, unavailable: set<Id>, pers: seq<Id>)
    requires Distinct(pers) && forall per | per == 1 || per == 2 :: per in pers || per in unavailable
    ensures var problem := Small(weekly, doubles, unavailable, true); Covered(problem, LessonsAt(problem, weekly, doubles, pers))
  {
    var problem := Small(weekly, doubles, unavailable, true);
    var ps := LessonsAt(problem, weekly, doubles, pers);
    hide *;
    TheWeek(problem) by {
      ThePeople(weekly, doubles, unavailable, true);
    }
    CohortAttends(problem, weekly, doubles, pers);
    ThePeople(weekly, doubles, unavailable, true);
    NowCovered(problem, ps, unavailable);
  }

  lemma ThePeople(weekly: int, doubles: nat, unavailable: set<Id>, coverage: bool)
    ensures var problem := Small(weekly, doubles, unavailable, coverage);
            && problem.periods == [MORNING, NOON] && problem.learners == map[] && problem.cohorts == map[1 := Cohort(1, 1, unavailable)]
            && MORNING.id == 1 && NOON.id == 2
  {
  }

  lemma CohortAttends(problem: Problem, weekly: int, doubles: nat, pers: seq<Id>)
    requires Distinct(pers)
    ensures forall per | per in pers :: Bookings(CohortUse, LessonsAt(problem, weekly, doubles, pers))[(1, per)] == 1
  {
    var ps := LessonsAt(problem, weekly, doubles, pers);
    NoLessonsClash(problem, weekly, doubles, pers);
    ExclusiveIffNoClash(CohortUse, ps);
    hide NoClash, Bookings;
    forall per | per in pers
      ensures Bookings(CohortUse, ps)[(1, per)] == 1
    {
      var i :| 0 <= i < |pers| && pers[i] == per;
      assert ps[i] in ps && 1 in Keys(CohortUse, ps[i]) && per in ps[i].periods;
      BookedIffCounted(CohortUse, ps, 1, per);
    }
  }

  lemma NowCovered(problem: Problem, ps: seq<Placement>, unavailable: set<Id>)
    requires problem.learners == map[] && problem.cohorts == map[1 := Cohort(1, 1, unavailable)]
    requires forall p :: p in UsablePeriods(problem) ==> p.id == 1 || p.id == 2
    requires forall per | (per == 1 || per == 2) && per !in unavailable :: Bookings(CohortUse, ps)[(1, per)] == 1
    ensures Covered(problem, ps)
  {
    hide Bookings, UsablePeriods;
    assert CohortUnavailable(problem, 1) == unavailable;
  }

  // ----- coverage

  /** The cohort is unavailable at noon and has its one lesson in the morning: the timetable is valid, full coverage included, and the
      preflight rejects the problem because there are two periods. */
  lemma CoveredButRejected()
    ensures var problem := Small(1, 0, {2}, true);
            && WellFormed(problem) && Necessity.DistinctSlots(problem) && Necessity.Scoped(problem)
            && Necessity.Witness(problem, LessonsAt(problem, 1, 0, [1]))
            && Preflight.Raises(problem, Preflight.Issue(Preflight.CoverageMismatch, 1)) && !Preflight.Feasible(problem)
  {
    hide *;
    TheCourse(1, 0, {2}, true);
    TheScope();
    PlainlyTaught();
    Mismatched();
    RaisedIsNotFeasible(Small(1, 0, {2}, true), Preflight.Issue(Preflight.CoverageMismatch, 1));
  }

  lemma TheScope()
    ensures Necessity.Scoped(Small(1, 0, {2}, true))
  {
    TheWeek(Small(1, 0, {2}, true));
    hide UsablePeriods;
  }

  lemma RaisedIsNotFeasible(problem: Problem, i: Preflight.Issue)
    requires Preflight.Raises(problem, i)
    ensures !Preflight.Feasible(problem)
  {
    hide Preflight.Raises;
  }

  lemma PlainlyTaught()
    ensures var problem := Small(1, 0, {2}, true); Necessity.Witness(problem, LessonsAt(problem, 1, 0, [1]))
  {
    hide ValidSchedule, LessonsAt, Small, Necessity.Witness, Necessity.PlainLesson;
    LessonsAreValid(1, 0, {2}, true, [1]);
    OnePlainLesson();
    TheOneCourse(1, 0, {2}, true);
    NowWitness(Small(1, 0, {2}, true), LessonsAt(Small(1, 0, {2}, true), 1, 0, [1]));
  }

  lemma TheOneCourse(weekly: int, doubles: nat, unavailable: set<Id>, coverage: bool)
    ensures Small(weekly, doubles, unavailable, coverage).assignments == [Course(weekly, doubles)]
  {
  }

  lemma OnePlainLesson()
    ensures var problem := Small(1, 0, {2}, true); forall p | p in LessonsAt(problem, 1, 0, [1]) :: Necessity.PlainLesson(problem, p)
  {
    TheCourse(1, 0, {2}, true);
    hide Small, Schedule, WellFormed, Necessity.DistinctSlots, Schedulable;
  }

  lemma NowWitness(problem: Problem, ps: seq<Placement>)
    requires ValidSchedule(problem, ps) && (forall p | p in ps :: Necessity.PlainLesson(problem, p)) && problem.assignments == [Course(1, 0)]
    ensures Necessity.Witness(problem, ps)
  {
    hide ValidSchedule, Necessity.PlainLesson, DoubleCount;
  }

  lemma Mismatched()
    ensures Preflight.Raises(Small(1, 0, {2}, true), Preflight.Issue(Preflight.CoverageMismatch, 1))
  {
    hide *;
    CourseIsBookable();
    OnlyCourse(Small(1, 0, {2}, true), 1, 0);
    NowMismatched(Small(1, 0, {2}, true));
  }

  lemma CourseIsBookable()
    ensures var problem := Small(1, 0, {2}, true);
            && problem.assignments == [Course(1, 0)] && Preflight.Bookable(problem, Course(1, 0)) && 1 in problem.cohorts && problem.fullCoverage
            && |UsablePeriods(problem)| == 2
  {
    TheWeek(Small(1, 0, {2}, true));
    hide UsablePeriods, AvailableCount, PeriodById;
  }

  lemma NowMismatched(problem: Problem)
    requires Preflight.Demanded(problem, problem.assignments, Preflight.OfCohort(1)) && 1 in problem.cohorts && problem.fullCoverage
    requires Preflight.Demand(problem, problem.assignments, Preflight.OfCohort(1), Preflight.WeeklyPeriods) != |UsablePeriods(problem)|
    ensures Preflight.Raises(problem, Preflight.Issue(Preflight.CoverageMismatch, 1))
  {
    hide UsablePeriods, Preflight.Demanded, Preflight.Demand;
  }

  lemma OnlyCourse(problem: Problem, weekly: int, doubles: nat)
    requires problem.assignments == [Course(weekly, doubles)] && Preflight.Bookable(problem, Course(weekly, doubles))
    ensures Preflight.Demand(problem, problem.assignments, Preflight.OfCohort(1), Preflight.WeeklyPeriods) == weekly
    ensures Preflight.Demanded(problem, problem.assignments, Preflight.OfCohort(1))
  {
    assert problem.assignments[..0] == [];
    assert Preflight.Hits(Preflight.OfCohort(1), Course(weekly, doubles));
  }

  // ----- double lessons

  /** A course of two periods that asks for a double lesson gets two single ones, and the timetable is valid. */
  lemma SinglesForDouble()
    ensures var problem := Small(2, 1, {}, true);
            && ValidSchedule(problem, LessonsAt(problem, 2, 1, [1, 2])) && problem.assignments[0].doubles == 1
            && DoubleCount(LessonsAt(problem, 2, 1, [1, 2]), 1) == 0
  {
    LessonsAreValid(2, 1, {}, true, [1, 2]);
    LessonsCount(Small(2, 1, {}, true), 2, 1, [1, 2]);
  }
}

/** Solver and validator agree: compatible lessons of a feasible problem can only fall short, never clash. */
module Agreement {
  import opened Model
  import opened Lessons
  import opened Ledger
  import opened Validator
  import opened Loads
  import Preflight
  import Matching
  import TeacherMatching

  ghost predicate Ordinary(problem: Problem) {
    problem.groups == [] && problem.learners == map[] && problem.blocks == []
  }

  /** What a silent preflight guarantees of each assignment. */
  lemma FeasibleAssignment(problem: Problem, a: Assignment)
    requires Preflight.Feasible(problem) && a in problem.assignments && Schedulable(problem, a)
    ensures Preflight.Bookable(problem, a)
    ensures a.year == problem.year && a.term == problem.term
    ensures (a.cohort, a.cohortSubject) in problem.registrations
    ensures problem.teachers[a.teacher].qualified == {} || a.subject in problem.teachers[a.teacher].qualified
    ensures a.doubles * 2 <= a.weekly
  {
    var outside := Preflight.Issue(Preflight.OutsideScope, a.id);
    var teacher := Preflight.Issue(Preflight.MissingTeacher, a.id);
    var cohort := Preflight.Issue(Preflight.MissingCohort, a.id);
    assert !Preflight.Raises(problem, outside) && !Preflight.Raises(problem, teacher) && !Preflight.Raises(problem, cohort);
    assert !Preflight.AssignmentRaises(problem, a, outside) && !Preflight.AssignmentRaises(problem, a, teacher);
    assert !Preflight.AssignmentRaises(problem, a, cohort);
    var subject := Preflight.Issue(Preflight.UnregisteredSubject, a.id);
    var qualified := Preflight.Issue(Preflight.NotQualified, problem.teachers[a.teacher].id);
    var doubles := Preflight.Issue(Preflight.InvalidDoubles, a.id);
    assert !Preflight.Raises(problem, subject) && !Preflight.Raises(problem, qualified) && !Preflight.Raises(problem, doubles);
    assert !Preflight.AssignmentRaises(problem, a, subject) && !Preflight.AssignmentRaises(problem, a, qualified);
    assert !Preflight.AssignmentRaises(problem, a, doubles);
  }

  /** The assignment is inside the scope, registered, and its teacher is qualified. */
  ghost predicate FineAssignment(problem: Problem, a: Assignment) {
    && Preflight.Bookable(problem, a) && a.year == problem.year && a.term == problem.term
    && (a.cohort, a.cohortSubject) in problem.registrations
    && (problem.teachers[a.teacher].qualified == {} || a.subject in problem.teachers[a.teacher].qualified)
  }

  /** A legal lesson of a fine assignment is beyond reproach. */
  lemma FineIsSound(problem: Problem, p: Placement)
    requires WellFormed(problem) && LegalLesson(problem, Schedule(problem), p) && FineAssignment(problem, Schedule(problem)[p.assignment])
    ensures SoundLesson(problem, p)
  {
    ScheduleEntries(problem);
    AssignmentByIdEntries(problem.assignments);
    CohortKeys(problem, Schedule(problem), p);
    var a := Schedule(problem)[p.assignment];
    assert AssignmentIds(p) == [a.id];
    assert AssignmentById(problem.assignments)[a.id] == a;
    hide Schedule, AssignmentById, WellFormed, AssignmentIds, CohortIds, PeriodById;
    assert forall per | per in p.periods :: OpenCell(problem, a, per);
    assert p.double ==> p.periods[0] in p.periods && p.periods[1] in p.periods;
  }

  /** A legal lesson of a feasible problem is beyond reproach. */
  lemma LegalIsSound(problem: Problem, p: Placement)
    requires WellFormed(problem) && Preflight.Feasible(problem) && LegalLesson(problem, Schedule(problem), p)
    ensures SoundLesson(problem, p)
  {
    ScheduleEntries(problem);
    hide Schedule, Preflight.Feasible, WellFormed, SoundLesson;
    FeasibleAssignment(problem, Schedule(problem)[p.assignment]);
    FineIsSound(problem, p);
  }

  // ----- workload

  lemma LegalIsPlain(problem: Problem, ps: seq<Placement>)
    requires WellFormed(problem) && Preflight.Feasible(problem)
    requires forall p | p in ps :: LegalLesson(problem, Schedule(problem), p)
    ensures PlainLessons(problem, ps)
  {
    ScheduleEntries(problem);
    hide Schedule;
    forall p | p in ps
      ensures IsPlain(problem, p)
    {
      var a := Schedule(problem)[p.assignment];
      FeasibleAssignment(problem, a);
      assert Teaches(problem, p, a);
    }
  }

  lemma {:induction false} AvailableNonNegative(problem: Problem, t: Id)
    requires t in problem.teachers
    ensures WorkloadCap(problem, problem.teachers[t]) >= 0
  {
  }

  /** Credit within demand keeps every teacher within the workload limit. */
  lemma NobodyOverworked(problem: Problem, ps: seq<Placement>, t: Id)
    requires WellFormed(problem) && Preflight.Feasible(problem) && t in problem.teachers
    requires forall p | p in ps :: LegalLesson(problem, Schedule(problem), p)
    requires forall a | a in problem.assignments && Schedulable(problem, a) :: Credit(ps, a.id) <= a.weekly
    ensures TeacherLoad(ps, t) <= WorkloadCap(problem, problem.teachers[t])
  {
    LegalIsPlain(problem, ps);
    hide LegalLesson, Schedule, PlainLessons, CreditSum, TeacherLoad, WorkloadCap, Preflight.Demand;
    TeacherLoadIsLoad(ps, t);
    LoadIsCredit(problem, ps, Preflight.OfTeacher(t));
    CreditWithinDemand(problem, problem.assignments, ps, Preflight.OfTeacher(t));
    AvailableNonNegative(problem, t);
    if Preflight.Demanded(problem, problem.assignments, Preflight.OfTeacher(t)) {
      assert !Preflight.Raises(problem, Preflight.Issue(Preflight.TeacherCapacity, t));
    } else {
      Preflight.NotDemanded(problem, problem.assignments, Preflight.OfTeacher(t), Preflight.WeeklyPeriods);
    }
  }

  // ----- the agreement

  lemma {:induction false} NoUse(kind: Kind, ps: seq<Placement>)
    requires forall p | p in ps :: Keys(kind, p) == []
    ensures Bookings(kind, ps) == multiset{}
  {
    if ps != [] {
      var rest, last := ps[..|ps| - 1], ps[|ps| - 1];
      assert ps == rest + [last];
      NoUse(kind, rest);
      forall x: (Id, Id) ensures Pairs(Keys(kind, last), last.periods)[x] == 0 {
        PairsCount(Keys(kind, last), last.periods, x);
      }
    }
  }

  lemma NoAudience(problem: Problem, assignments: map<Id, Assignment>, ps: seq<Placement>)
    requires forall p | p in ps :: LegalLesson(problem, assignments, p)
    ensures AtMostOnce(Bookings(LearnerUse, ps)) && AtMostOnce(Bookings(GroupUse, ps))
  {
    assert forall p | p in ps :: Keys(LearnerUse, p) == [] && Keys(GroupUse, p) == [];
    hide LegalLesson;
    NoUse(LearnerUse, ps);
    NoUse(GroupUse, ps);
  }

  /** After a silent preflight the solver's lessons can break nothing but complete demand and full coverage. */
  lemma SolverAgreesWithValidator(problem: Problem, ps: seq<Placement>, inv: Invariant)
    requires WellFormed(problem) && Ordinary(problem) && Preflight.Feasible(problem)
    requires Compatible(problem, Schedule(problem), ps)
    requires forall a | a in problem.assignments && Schedulable(problem, a) :: Credit(ps, a.id) <= a.weekly
    requires inv != DemandSatisfaction && inv != CohortCoverage
    ensures !Violates(inv, problem, ps)
  {
    hide LegalLesson, Schedule, Preflight.Feasible, WellFormed, Faulty, Counted, Bookings, TeacherLoad, WorkloadCap, Capacity, Credit, AtMostOnce;
    forall p | p in ps
      ensures Counted(problem, p) && !Faulty(inv, problem, p)
    {
      LegalIsSound(problem, p);
      SoundIffFaultless(problem, p);
    }
    AllCounted(problem, ps);
    NoAudience(problem, Schedule(problem), ps);
    NotOverbooked(problem, ps);
    forall t | t in problem.teachers
      ensures !Overworked(problem, ps, t)
    {
      NobodyOverworked(problem, ps, t);
    }
  }

  // ----- complete schedules

  ghost predicate AllCredited(problem: Problem, ps: seq<Placement>) {
    forall a | a in problem.assignments && Schedulable(problem, a) :: Credit(ps, a.id) == a.weekly
  }

  lemma {:induction false} EligibleEdgesFrom(problem: Problem, list: seq<Assignment>, per: Id, e: Matching.Edge)
    requires e in Preflight.EligibleEdges(problem, list, per)
    ensures exists a | a in list :: Preflight.Eligible(problem, a, per) && e == Matching.Edge(a.teacher, a.cohort, a.id)
  {
    assert list == list[..|list| - 1] + [list[|list| - 1]];
    if e in Preflight.EligibleEdges(problem, list[..|list| - 1], per) {
      EligibleEdgesFrom(problem, list[..|list| - 1], per, e);
    }
  }

  lemma {:induction false} RightsSize(choice: seq<Matching.Edge>) returns (rights: set<Id>)
    requires forall i, j | 0 <= i < j < |choice| :: choice[i].right != choice[j].right
    ensures |rights| == |choice| && forall r :: r in rights <==> exists e | e in choice :: e.right == r
  {
    if choice == [] {
      rights := {};
    } else {
      var rest, last := choice[..|choice| - 1], choice[|choice| - 1];
      assert choice == rest + [last];
      var smaller := RightsSize(rest);
      assert last.right !in smaller;
      rights := smaller + {last.right};
    }
  }

  /** Under full coverage, a silent preflight means that every cohort of the workspace has demand. */
  lemma CoveredCohortIsDemanded(problem: Problem, c: Id, period: Period)
    requires Preflight.Feasible(problem) && problem.fullCoverage && period in UsablePeriods(problem)
    requires LocalCohort(problem, c) && !CohortBlocked(problem, c, period.id)
    ensures Preflight.Demanded(problem, problem.assignments, Preflight.OfCohort(c))
  {
    var edges := Preflight.EligibleEdges(problem, problem.assignments, period.id);
    var required := Preflight.CohortsRequired(problem, period.id);
    assert !Preflight.Raises(problem, Preflight.Issue(Preflight.EligibilityShortage, period.id));
    assert !Preflight.PeriodRaises(problem, period.id, Preflight.EligibilityShortage);
    var choice: seq<Matching.Edge> :| TeacherMatching.IsDisjointChoice(edges, choice) && |choice| >= |required|;
    var rights := RightsSize(choice);
    forall r | r in rights
      ensures r in required && Preflight.Demanded(problem, problem.assignments, Preflight.OfCohort(r))
    {
      var e :| e in choice && e.right == r;
      EligibleEdgesFrom(problem, problem.assignments, period.id, e);
      var a :| a in problem.assignments && Preflight.Eligible(problem, a, period.id) && e == Matching.Edge(a.teacher, a.cohort, a.id);
      FeasibleAssignment(problem, a);
    }
    Matching.SplitSize(required, rights);
    assert rights <= required;
    Matching.SplitSize(rights, required);
    assert |required - rights| == 0;
    assert c in required && c !in required - rights;
  }

  lemma {:induction false} CohortLoad(problem: Problem, assignments: map<Id, Assignment>, ps: seq<Placement>, c: Id)
    requires WellFormed(problem) && forall p | p in ps :: LegalLesson(problem, assignments, p)
    ensures KeyLoad(CohortUse, ps, c) == Load(ps, Preflight.OfCohort(c))
  {
    if ps != [] {
      assert ps[|ps| - 1] in ps;
      CohortKeys(problem, assignments, ps[|ps| - 1]);
      hide LegalLesson, WellFormed, Keys;
      CohortLoad(problem, assignments, ps[..|ps| - 1], c);
    }
  }

  /** The identifiers of the usable periods. */
  lemma UsableIds(problem: Problem) returns (ids: set<Id>)
    requires WellFormed(problem)
    ensures |ids| == |UsablePeriods(problem)| && forall id :: id in ids <==> exists p | p in UsablePeriods(problem) :: p.id == id
  {
    var periods := UsablePeriods(problem);
    UsablePeriodsElements(problem);
    assert Distinct(problem.periods);
    var list := seq(|periods|, i requires 0 <= i < |periods| => periods[i].id);
    forall i, j | 0 <= i < j < |list|
      ensures list[i] != list[j]
    {
      assert periods[i] in problem.periods && periods[j] in problem.periods && periods[i] != periods[j];
    }
    ids := set i | 0 <= i < |list| :: list[i];
    DistinctSetSize(list, ids);
    forall id
      ensures id in ids <==> exists p | p in periods :: p.id == id
    {
      if id in ids {
        var i :| 0 <= i < |list| && list[i] == id;
        assert periods[i] in periods;
      }
      if p :| p in periods && p.id == id {
        var i :| 0 <= i < |periods| && periods[i] == p;
        assert list[i] == id;
      }
    }
  }

  /** A demanded cohort is booked in as many periods as there are. */
  lemma FullWeekCount(problem: Problem, ps: seq<Placement>, c: Id)
    requires WellFormed(problem) && Preflight.Feasible(problem) && problem.fullCoverage
    requires Compatible(problem, Schedule(problem), ps) && AllCredited(problem, ps)
    requires Preflight.Demanded(problem, problem.assignments, Preflight.OfCohort(c)) && c in problem.cohorts
    ensures |BookedPeriods(CohortUse, ps, c)| == |UsablePeriods(problem)|
  {
    var target := Preflight.OfCohort(c);
    hide LegalLesson, Schedule, Preflight.Demanded, Preflight.Demand, UsablePeriods, PlainLessons, NoClash, AtMostOnce, Bookings;
    assert !Preflight.Raises(problem, Preflight.Issue(Preflight.CoverageMismatch, c));
    LegalIsPlain(problem, ps);
    LoadIsCredit(problem, ps, target);
    CreditMeetsDemand(problem, problem.assignments, ps, target);
    CohortLoad(problem, Schedule(problem), ps, c);
    ExclusiveIffNoClash(CohortUse, ps);
    ExclusiveLoad(CohortUse, ps, c);
  }

  /** Pigeonhole: a cohort whose demand fills the week has a lesson in every usable period. */
  lemma FullWeek(problem: Problem, ps: seq<Placement>, c: Id, period: Period)
    requires WellFormed(problem) && Preflight.Feasible(problem) && problem.fullCoverage
    requires Compatible(problem, Schedule(problem), ps) && AllCredited(problem, ps)
    requires Preflight.Demanded(problem, problem.assignments, Preflight.OfCohort(c)) && c in problem.cohorts
    requires period in UsablePeriods(problem)
    ensures Booked(CohortUse, ps, c, period.id)
  {
    var booked := BookedPeriods(CohortUse, ps, c);
    FullWeekCount(problem, ps, c);
    var ids := UsableIds(problem);
    BookedPeriodsMember(CohortUse, ps, c);
    hide LegalLesson, Schedule, Preflight.Feasible, Preflight.Demanded, UsablePeriods, AllCredited, Booked, BookedPeriods, Bookings;
    forall per | per in booked
      ensures per in ids
    {
      BookedIsUsable(problem, Schedule(problem), ps, c, per);
    }
    Matching.SplitSize(ids, booked);
    Matching.SplitSize(booked, ids);
    assert |ids - booked| == 0;
    assert period.id in ids && period.id !in ids - booked;
  }

  lemma BookedIsUsable(problem: Problem, assignments: map<Id, Assignment>, ps: seq<Placement>, c: Id, per: Id)
    requires Booked(CohortUse, ps, c, per) && forall p | p in ps :: LegalLesson(problem, assignments, p)
    ensures exists p | p in UsablePeriods(problem) :: p.id == per
  {
    var p :| p in ps && c in Keys(CohortUse, p) && per in p.periods;
    assert OpenCell(problem, assignments[p.assignment], per);
    PeriodByIdEntries(problem.periods);
    UsablePeriodsElements(problem);
    assert PeriodById(problem.periods)[per] in UsablePeriods(problem);
  }

  /** A compatible schedule that meets every demand of a feasible problem is valid, full coverage included. */
  lemma CompleteIsValid(problem: Problem, ps: seq<Placement>)
    requires WellFormed(problem) && Ordinary(problem) && Preflight.Feasible(problem)
    requires Compatible(problem, Schedule(problem), ps) && AllCredited(problem, ps)
    ensures ValidSchedule(problem, ps)
  {
    hide LegalLesson, Schedule, Preflight.Feasible, WellFormed, Faulty, Bookings, TeacherLoad, WorkloadCap, Capacity, Credit, AtMostOnce,
         UsablePeriods, Counted;
    if problem.fullCoverage {
      forall c | LocalCohort(problem, c)
        ensures CoveredOne(Bookings(CohortUse, ps), UsablePeriods(problem), c, CohortUnavailable(problem, c))
      {
        CohortIsCovered(problem, ps, c);
      }
    }
    forall inv
      ensures !Violates(inv, problem, ps)
    {
      forall p | p in ps
        ensures Counted(problem, p) && !Faulty(inv, problem, p)
      {
        LegalIsSound(problem, p);
        SoundIffFaultless(problem, p);
      }
      AllCounted(problem, ps);
      if inv != DemandSatisfaction && inv != CohortCoverage {
        SolverAgreesWithValidator(problem, ps, inv);
      }
    }
    ValidIffNothingViolated(problem, ps);
  }

  lemma CohortIsCovered(problem: Problem, ps: seq<Placement>, c: Id)
    requires WellFormed(problem) && Ordinary(problem) && Preflight.Feasible(problem) && problem.fullCoverage
    requires Compatible(problem, Schedule(problem), ps) && AllCredited(problem, ps) && LocalCohort(problem, c)
    ensures CoveredOne(Bookings(CohortUse, ps), UsablePeriods(problem), c, CohortUnavailable(problem, c))
  {
    forall period | period in UsablePeriods(problem) && period.mandatory && period.id !in CohortUnavailable(problem, c)
      ensures Bookings(CohortUse, ps)[(c, period.id)] == 1
    {
      CoveredCohortIsDemanded(problem, c, period);
      FullWeek(problem, ps, c, period);
      BookedIffCounted(CohortUse, ps, c, period.id);
    }
  }
}

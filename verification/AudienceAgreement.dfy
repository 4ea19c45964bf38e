/** Audience solver and validator: what the lessons of an audience attempt can and cannot break. */
module AudienceAgreement {
  import opened Model
  import opened Lessons
  import opened Ledger
  import opened AttemptState
  import opened Tasks
  import opened DoubleDemand
  import opened Audience
  import opened AudienceSolver
  import opened Validator
  import AudiencePreflight
  import AudienceAttempt

  /** Cohorts have names. */
  ghost predicate CohortsNamed(problem: Problem) {
    && (forall a | a in problem.assignments :: a.cohort != NO_ID)
    && forall l | l in problem.learners :: problem.learners[l].cohort != NO_ID
  }

  /** The lesson is beyond reproach, but for the qualification of its teacher, which the audience preflight does not look at. */
  ghost predicate SoundButForTeacher(problem: Problem, p: Placement) {
    var all := AssignmentById(problem.assignments);
    && Counted(problem, p) && LocalTeacher(problem, p.teacher)
    && (forall id | id in AssignmentIds(p) ::
          && AuthorizedCover(problem, p, id) && all[id].cohort in CohortIds(p)
          && (all[id].cohort, all[id].cohortSubject) in problem.registrations)
    && p.workspace == problem.workspace && all[PrimaryId(p)].workspace == problem.workspace
    && p.year == problem.year && p.term == problem.term
    && all[PrimaryId(p)].year == problem.year && all[PrimaryId(p)].term == problem.term
    && (forall c | c in CohortIds(p) :: LocalCohort(problem, c))
    && (forall l | l in p.learners :: EligibleLearner(problem, p, l))
    && WellTimed(problem, p)
    && (forall per | per in p.periods :: OpenPeriod(problem, p, per))
    && (p.resource != NO_ID ==> forall per | per in p.periods :: OpenResource(problem, p.resource, per))
  }

  /** Nothing but its authority can be held against such a lesson; and nothing at all if the teacher is qualified. */
  lemma OnlyAuthorityCanFail(problem: Problem, p: Placement, inv: Invariant)
    requires SoundButForTeacher(problem, p)
    ensures inv != AssignmentAuthority ==> !Faulty(inv, problem, p)
    ensures QualifiedTeacher(problem, p) <==> SoundLesson(problem, p)
  {
    hide AssignmentIds, CohortIds, AssignmentById, LocalCohort, EligibleLearner, OpenPeriod, OpenResource, WellTimed, PrimaryId, AuthorizedCover;
  }

  /** What the preflight makes sure of about an assignment that a task covers. */
  ghost predicate FineCover(problem: Problem, t: Spec, id: Id) {
    && id in Schedule(problem)
    && var a := Schedule(problem)[id];
       && a.teacher == t.teacher && a.subject == t.subject && a.cohort in t.cohorts
       && a.year == problem.year && a.term == problem.term && (a.cohort, a.cohortSubject) in problem.registrations
  }

  lemma GroupCovers(problem: Problem, specs: seq<Spec>, order: seq<Id>, g: Group, id: Id)
    requires WellFormed(problem) && AudiencePreflight.Feasible(problem) && IsTaskList(problem, specs, order) && CohortsNamed(problem)
    requires g in problem.groups && AudiencePreflight.CountedGroup(problem, g) && id in UniqueIds(g.assignments)
    ensures id in Schedule(problem) && Schedule(problem)[id].teacher == g.teacher && Schedule(problem)[id].subject == g.subject
    ensures Schedule(problem)[id].cohort in UniqueIds(g.cohorts)
  {
    hide AudiencePreflight.Feasible, IsTaskList, Schedule, UniqueIds;
    ScheduleEntries(problem);
    AudienceAttempt.NoObjection(problem, specs, order, AudiencePreflight.MissingAssignment);
    AudienceAttempt.NoObjection(problem, specs, order, AudiencePreflight.TeacherMismatch);
    AudienceAttempt.NoObjection(problem, specs, order, AudiencePreflight.CohortMismatch);
    assert !AudiencePreflight.GroupObjects(problem, g, AudiencePreflight.MissingAssignment);
    assert !AudiencePreflight.GroupObjects(problem, g, AudiencePreflight.TeacherMismatch);
    assert !AudiencePreflight.GroupObjects(problem, g, AudiencePreflight.CohortMismatch);
    assert !AudiencePreflight.Mismatched(problem, g, id) && !AudiencePreflight.Outside(problem, g, id);
  }

  lemma TaskCovers(problem: Problem, specs: seq<Spec>, order: seq<Id>, t: Spec, id: Id)
    requires WellFormed(problem) && AudiencePreflight.Feasible(problem) && IsTaskList(problem, specs, order) && CohortsNamed(problem)
    requires t in specs && t.weekly > 0 && Origin(problem, t) && id in t.assignments
    ensures FineCover(problem, t, id)
  {
    hide AudiencePreflight.Feasible, IsTaskList, Schedule, UniqueIds, Rest, RestDoubles, WellFormed;
    AudienceAttempt.NoObjection(problem, specs, order, AudiencePreflight.OutsideScope);
    AudienceAttempt.NoObjection(problem, specs, order, AudiencePreflight.UnregisteredSubject);
    assert !AudiencePreflight.TaskObjects(problem, t, AudiencePreflight.OutsideScope);
    assert !AudiencePreflight.TaskObjects(problem, t, AudiencePreflight.UnregisteredSubject);
    assert !AudiencePreflight.OutOfScope(problem, id) && !AudiencePreflight.Unregistered(problem, id);
    if MadeFrom(problem, problem.groups, t) {
      var g :| g in problem.groups && Shares(problem, g) && t == GroupSpec(g);
      GroupCovers(problem, specs, order, g, id);
    } else {
      ScheduleEntries(problem);
    }
  }

  lemma TaskMembers(problem: Problem, specs: seq<Spec>, order: seq<Id>, t: Spec, l: Id)
    requires WellFormed(problem) && AudiencePreflight.Feasible(problem) && IsTaskList(problem, specs, order) && CohortsNamed(problem)
    requires t in specs && Origin(problem, t) && l in t.learners
    ensures l in problem.learners && LocalLearner(problem, l) && problem.learners[l].cohort in t.cohorts
  {
    hide AudiencePreflight.Feasible, IsTaskList, Schedule, Rest, RestDoubles, WellFormed;
    if MadeFrom(problem, problem.groups, t) {
      var g :| g in problem.groups && Shares(problem, g) && t == GroupSpec(g);
      AudienceAttempt.GroupsAreFine(problem, specs, order, g);
      hide UniqueIds;
      assert AudiencePreflight.EligibleMember(problem, g, l);
    }
  }

  lemma LessonAudience(problem: Problem, t: Spec, p: Placement)
    requires WellFormed(problem) && Tidy(t) && IsLessonOf(problem, t, p)
    ensures forall c :: c in CohortIds(p) <==> c in t.cohorts
    ensures forall id :: id in AssignmentIds(p) <==> id in t.assignments
    ensures PrimaryId(p) in t.assignments
    ensures p.teacher == t.teacher && p.subject == t.subject && p.learners == t.learners && p.resource == t.resource
    ensures p.workspace == problem.workspace && p.year == problem.year && p.term == problem.term
  {
    hide OpenFor, WellShaped, TagFits;
    assert forall c | c in t.cohorts :: LocalCohort(problem, c) && c != NO_ID;
    assert t.assignments[0] in t.assignments;
    assert t.assignments[0] in AssignmentIds(p);
  }

  lemma LessonTiming(problem: Problem, t: Spec, p: Placement)
    requires WellFormed(problem) && Tidy(t) && IsLessonOf(problem, t, p)
    ensures WellTimed(problem, p) && forall per | per in p.periods :: OpenPeriod(problem, p, per)
    ensures p.resource != NO_ID ==> forall per | per in p.periods :: OpenResource(problem, p.resource, per)
  {
    LessonAudience(problem, t, p);
    hide WellFormed, Tidy, CohortIds, TagFits, LocalPeople, PeriodById;
    assert forall per | per in p.periods :: OpenFor(problem, t, per);
    assert p.double ==> p.periods[0] in p.periods && p.periods[1] in p.periods;
  }

  lemma CoverIsSound(problem: Problem, specs: seq<Spec>, order: seq<Id>, t: Spec, p: Placement, id: Id)
    requires WellFormed(problem) && AudiencePreflight.Feasible(problem) && IsTaskList(problem, specs, order) && CohortsNamed(problem)
    requires t in specs && t.weekly > 0 && Origin(problem, t) && id in t.assignments && p.teacher == t.teacher && p.subject == t.subject
    requires forall c | c in t.cohorts :: c in CohortIds(p)
    ensures SoundCover(problem, p, id)
  {
    hide AudiencePreflight.Feasible, IsTaskList, Schedule, WellFormed, Origin, CohortsNamed, AssignmentById, CohortIds;
    TaskCovers(problem, specs, order, t, id);
    CoverIsListed(problem, id);
  }

  /** Nothing can be said against the lesson's covering the assignment. */
  ghost predicate SoundCover(problem: Problem, p: Placement, id: Id) {
    var all := AssignmentById(problem.assignments);
    && AuthorizedCover(problem, p, id) && id in all && all[id].active && all[id].workspace == problem.workspace && all[id].cohort in CohortIds(p)
    && (all[id].cohort, all[id].cohortSubject) in problem.registrations && all[id].year == problem.year && all[id].term == problem.term
  }

  lemma NowSound(problem: Problem, t: Spec, p: Placement)
    requires LocalPeople(problem, t) && p.teacher == t.teacher && p.learners == t.learners
    requires forall c :: c in CohortIds(p) <==> c in t.cohorts
    requires forall id :: id in AssignmentIds(p) <==> id in t.assignments
    requires PrimaryId(p) in t.assignments && p.workspace == problem.workspace && p.year == problem.year && p.term == problem.term
    requires forall id | id in t.assignments :: SoundCover(problem, p, id)
    requires forall l | l in t.learners :: EligibleLearner(problem, p, l)
    requires WellTimed(problem, p) && forall per | per in p.periods :: OpenPeriod(problem, p, per)
    requires p.resource != NO_ID ==> forall per | per in p.periods :: OpenResource(problem, p.resource, per)
    ensures SoundButForTeacher(problem, p)
  {
    hide AssignmentById, AssignmentIds, CohortIds, PrimaryId, WellTimed, OpenPeriod, OpenResource, AuthorizedCover, EligibleLearner, LocalTeacher,
         LocalCohort, LocalLearner;
    assert SoundCover(problem, p, PrimaryId(p));
  }

  lemma LessonIsSound(problem: Problem, specs: seq<Spec>, order: seq<Id>, t: Spec, p: Placement)
    requires WellFormed(problem) && AudiencePreflight.Feasible(problem) && IsTaskList(problem, specs, order) && CohortsNamed(problem)
    requires t in specs && t.weekly > 0 && Tidy(t) && Origin(problem, t) && IsLessonOf(problem, t, p)
    ensures SoundButForTeacher(problem, p)
  {
    assert LocalPeople(problem, t);
    hide *;
    LessonAudience(problem, t, p);
    LessonTiming(problem, t, p);
    forall id | id in t.assignments
      ensures SoundCover(problem, p, id)
    {
      CoverIsSound(problem, specs, order, t, p, id);
    }
    forall l | l in t.learners
      ensures EligibleLearner(problem, p, l)
    {
      TaskMembers(problem, specs, order, t, l);
      NowEligible(problem, p, l);
    }
    NowSound(problem, t, p);
  }

  lemma NowEligible(problem: Problem, p: Placement, l: Id)
    requires l in problem.learners && LocalLearner(problem, l) && problem.learners[l].cohort in CohortIds(p)
    ensures EligibleLearner(problem, p, l)
  {
  }

  lemma CoverIsListed(problem: Problem, id: Id)
    requires WellFormed(problem) && id in Schedule(problem)
    ensures id in AssignmentById(problem.assignments) && AssignmentById(problem.assignments)[id] == Schedule(problem)[id]
    ensures Schedulable(problem, Schedule(problem)[id])
  {
    ScheduleEntries(problem);
    AssignmentByIdEntries(problem.assignments);
  }

  // ----- workload

  lemma {:induction false} TotalIsNeed(specs: seq<Spec>, teacher: Id)
    requires forall t | t in specs :: t.weekly > 0
    ensures TeacherTotal(specs, teacher) == AudiencePreflight.Need(specs, AudiencePreflight.OfTeacher(teacher))
  {
    if specs != [] {
      assert specs == specs[..|specs| - 1] + [specs[|specs| - 1]];
      TotalIsNeed(specs[..|specs| - 1], teacher);
    }
  }

  lemma {:induction false} OwedNatural(specs: seq<Spec>, b: Books<TaskKey>, teacher: Id)
    requires Accounted(specs, b)
    ensures TeacherOwed(specs, b.remaining, teacher) >= 0
  {
    if specs != [] {
      assert specs == specs[..|specs| - 1] + [specs[|specs| - 1]];
      OwedNatural(specs[..|specs| - 1], b, teacher);
    }
  }

  /** No teacher is given more than the workload limit. */
  lemma NobodyOverworked(problem: Problem, specs: seq<Spec>, order: seq<Id>, o: Occupancy, b: Books<TaskKey>, teacher: Id)
    requires AudiencePreflight.Feasible(problem) && IsTaskList(problem, specs, order) && Sound(problem, specs, o, b)
    requires (forall t | t in specs :: t.weekly > 0) && teacher in problem.teachers
    ensures TeacherLoad(b.placements, teacher) <= WorkloadCap(problem, problem.teachers[teacher])
  {
    var use := AudiencePreflight.OfTeacher(teacher);
    hide AudiencePreflight.Feasible, IsTaskList, Mirrors, Exclusive, LegalTaskLesson, Conserved, TeacherLoad, TeacherOwed, TeacherTotal, WorkloadCap,
         AudiencePreflight.Need, AudiencePreflight.Uses;
    TotalIsNeed(specs, teacher);
    OwedNatural(specs, b, teacher);
    AudienceAttempt.NoObjection(problem, specs, order, AudiencePreflight.TeacherCapacity);
    assert !AudiencePreflight.Short(problem, specs, use);
    AudiencePreflight.NeededBySomeone(specs, use);
    CapNatural(problem, problem.teachers[teacher]);
  }

  lemma CapNatural(problem: Problem, t: Teacher)
    ensures WorkloadCap(problem, t) >= 0
  {
  }

  // ----- the agreement

  /** An invariant about people and things in two places at once. */
  predicate OfBookings(inv: Invariant) {
    inv == TeacherBooking || inv == CohortBooking || inv == LearnerBooking || inv == ResourceExclusivity
  }

  /** The blocks that are run are all in `done`. */
  ghost predicate AllDone(problem: Problem, done: set<Block>) {
    forall d | d in problem.blocks && Running(problem, d) :: d in done
  }

  /** After a silent audience preflight, whatever the shuffles and whenever the attempt stops, the validator can find nothing but
      demand that is not met, coverage, blocks that are not in step, and teachers who are not qualified. The blocks in `done` are in
      step: those that the attempt exhausted before its single tasks. */
  lemma AudienceAgreesWithValidator(problem: Problem, specs: seq<Spec>, order: seq<Id>, o: Occupancy, b: Books<TaskKey>, inv: Invariant, done: set<Block>)
    requires WellFormed(problem) && GroupsNamed(problem) && CohortsNamed(problem) && AudiencePreflight.Feasible(problem)
    requires IsTaskList(problem, specs, order) && Sound(problem, specs, o, b) && AudienceAttempt.AllInStep(b.placements, done)
    requires inv != DemandSatisfaction && inv != CohortCoverage && (inv == BlockSimultaneity ==> AllDone(problem, done))
    requires OfBookings(inv) ==> Exclusive(problem, b.placements)
    ensures inv != AssignmentAuthority ==> !Violates(inv, problem, b.placements)
    ensures (forall p | p in b.placements :: QualifiedTeacher(problem, p)) ==> !Violates(inv, problem, b.placements)
  {
    hide *;
    NoLessonIsFaulty(problem, specs, order, o, b, inv);
    if inv == BlockSimultaneity {
      BlocksInStep(problem, b.placements, done);
      OnlyBlocks(problem, b.placements);
    } else {
      NothingElse(problem, specs, order, o, b, inv);
    }
  }

  lemma BlocksInStep(problem: Problem, ps: seq<Placement>, done: set<Block>)
    requires AudienceAttempt.AllInStep(ps, done) && AllDone(problem, done)
    ensures !SomeBlockBroken(problem, ps)
  {
    hide GroupPeriods;
    forall d | d in problem.blocks && ActiveBlock(problem, d)
      ensures InStep(ps, d)
    {
      if Running(problem, d) {
        assert d in done;
      }
    }
  }

  lemma OnlyBlocks(problem: Problem, ps: seq<Placement>)
    requires !SomeBlockBroken(problem, ps)
    ensures !SomeFaulty(BlockSimultaneity, problem, ps) ==> !Violates(BlockSimultaneity, problem, ps)
  {
    hide SomeBlockBroken, SomeFaulty;
  }

  lemma NoLessonIsFaulty(problem: Problem, specs: seq<Spec>, order: seq<Id>, o: Occupancy, b: Books<TaskKey>, inv: Invariant)
    requires WellFormed(problem) && GroupsNamed(problem) && CohortsNamed(problem) && AudiencePreflight.Feasible(problem)
    requires IsTaskList(problem, specs, order) && Sound(problem, specs, o, b)
    ensures forall p | p in b.placements :: Counted(problem, p)
    ensures inv != AssignmentAuthority ==> !SomeFaulty(inv, problem, b.placements)
    ensures (forall p | p in b.placements :: QualifiedTeacher(problem, p)) ==> !SomeFaulty(inv, problem, b.placements)
  {
    hide WellFormed, GroupsNamed, CohortsNamed, AudiencePreflight.Feasible, IsTaskList, SoundButForTeacher, QualifiedTeacher, Faulty, Sound, Counted;
    forall p | p in b.placements
      ensures Counted(problem, p) && (inv != AssignmentAuthority ==> !Faulty(inv, problem, p)) && (QualifiedTeacher(problem, p) ==> !Faulty(inv, problem, p))
    {
      EveryLesson(problem, specs, order, o, b, p);
      NotFaulty(problem, p, inv);
    }
  }

  lemma NothingElse(problem: Problem, specs: seq<Spec>, order: seq<Id>, o: Occupancy, b: Books<TaskKey>, inv: Invariant)
    requires WellFormed(problem) && GroupsNamed(problem) && AudiencePreflight.Feasible(problem)
    requires IsTaskList(problem, specs, order) && Sound(problem, specs, o, b) && (forall p | p in b.placements :: Counted(problem, p))
    requires inv != DemandSatisfaction && inv != CohortCoverage && inv != BlockSimultaneity && (OfBookings(inv) ==> Exclusive(problem, b.placements))
    ensures !SomeFaulty(inv, problem, b.placements) ==> !Violates(inv, problem, b.placements)
  {
    var ps := b.placements;
    hide WellFormed, GroupsNamed, AudiencePreflight.Feasible, IsTaskList, Faulty, Bookings, AtMostOnce, Capacity, TeacherLoad, WorkloadCap, Counted, Sound,
         SomeFaulty;
    TaskListFacts(problem, specs, order);
    AllCounted(problem, ps);
    NotOverbooked(problem, ps);
    hide Exclusive;
    forall t | t in problem.teachers
      ensures !Overworked(problem, ps, t)
    {
      NobodyOverworked(problem, specs, order, o, b, t);
    }
    GroupsOnce(problem, specs, o, b);
    if OfBookings(inv) {
      ExclusiveParts(problem, b.placements);
    }
  }

  lemma GroupsOnce(problem: Problem, specs: seq<Spec>, o: Occupancy, b: Books<TaskKey>)
    requires Sound(problem, specs, o, b)
    ensures AtMostOnce(Bookings(GroupUse, b.placements))
  {
    hide Mirrors, LegalTaskLesson, Accounted, Conserved, Worked, Given, DoublesKept, Exclusive, BlocksCanRun, Bookings, AtMostOnce;
  }

  lemma ExclusiveParts(problem: Problem, ps: seq<Placement>)
    requires Exclusive(problem, ps)
    ensures AtMostOnce(Bookings(TeacherUse, ps)) && AtMostOnce(Bookings(CohortUse, ps)) && AtMostOnce(Bookings(LearnerUse, ps))
    ensures forall x :: Bookings(ResourceUse, ps)[x] <= Capacity(problem, x.0)
  {
    hide Bookings, AtMostOnce, Capacity, Apart;
  }

  lemma NotFaulty(problem: Problem, p: Placement, inv: Invariant)
    requires SoundButForTeacher(problem, p)
    ensures Counted(problem, p) && (inv != AssignmentAuthority ==> !Faulty(inv, problem, p)) && (QualifiedTeacher(problem, p) ==> !Faulty(inv, problem, p))
  {
    OnlyAuthorityCanFail(problem, p, inv);
    SoundIffFaultless(problem, p);
    hide SoundLesson, Faulty, QualifiedTeacher;
  }

  lemma EveryLesson(problem: Problem, specs: seq<Spec>, order: seq<Id>, o: Occupancy, b: Books<TaskKey>, p: Placement)
    requires WellFormed(problem) && GroupsNamed(problem) && CohortsNamed(problem) && AudiencePreflight.Feasible(problem)
    requires IsTaskList(problem, specs, order) && Sound(problem, specs, o, b) && p in b.placements
    ensures SoundButForTeacher(problem, p)
  {
    hide WellFormed, GroupsNamed, CohortsNamed, AudiencePreflight.Feasible, IsTaskList, SoundButForTeacher, Mirrors, Exclusive, Accounted, Conserved, Worked, Given, DoublesKept,
         IsLessonOf, Tidy, Origin;
    assert LegalTaskLesson(problem, specs, p);
    var t :| t in specs && IsLessonOf(problem, t, p);
    TaskListFacts(problem, specs, order);
    LessonIsSound(problem, specs, order, t, p);
  }

  // ----- qualification

  /** The test that the ordinary preflight makes of every assignment, and the audience preflight of none. */
  predicate QualifiedFor(problem: Problem, teacher: Id, subject: Id) {
    teacher in problem.teachers && (problem.teachers[teacher].qualified == {} || subject in problem.teachers[teacher].qualified)
  }

  ghost predicate QualifiedDemand(problem: Problem) {
    forall id | id in Schedule(problem) :: QualifiedFor(problem, Schedule(problem)[id].teacher, Schedule(problem)[id].subject)
  }

  /** The task has a lesson. */
  ghost predicate Taught(problem: Problem, t: Spec, ps: seq<Placement>) {
    exists p | p in ps :: IsLessonOf(problem, t, p)
  }

  lemma QualifiedLesson(problem: Problem, p: Placement)
    requires SoundButForTeacher(problem, p)
    ensures Faulty(AssignmentAuthority, problem, p) <==> !QualifiedFor(problem, p.teacher, p.subject)
  {
    TeacherIsLocal(problem, p);
    hide SoundButForTeacher, AuthorizedCover, PrimaryId, AssignmentIds, CohortIds;
    NoBadCover(problem, p);
  }

  lemma NoBadCover(problem: Problem, p: Placement)
    requires SoundButForTeacher(problem, p)
    ensures Counted(problem, p) && !SomeBadCover(problem, p)
  {
    hide AuthorizedCover, Counted, AssignmentIds, CohortIds, PrimaryId;
  }

  lemma TeacherIsLocal(problem: Problem, p: Placement)
    requires SoundButForTeacher(problem, p)
    ensures LocalTeacher(problem, p.teacher)
  {
  }

  /** Authority is violated exactly when a lesson's teacher is not qualified. */
  lemma AuthorityByLesson(problem: Problem, specs: seq<Spec>, order: seq<Id>, o: Occupancy, b: Books<TaskKey>)
    requires WellFormed(problem) && GroupsNamed(problem) && CohortsNamed(problem) && AudiencePreflight.Feasible(problem)
    requires IsTaskList(problem, specs, order) && Sound(problem, specs, o, b)
    ensures Violates(AssignmentAuthority, problem, b.placements) <==>
              exists p | p in b.placements :: !QualifiedFor(problem, p.teacher, p.subject)
  {
    hide WellFormed, GroupsNamed, CohortsNamed, AudiencePreflight.Feasible, IsTaskList, SoundButForTeacher, QualifiedFor, Faulty, Sound, Bookings,
         CountedOnly;
    forall p | p in b.placements
      ensures Faulty(AssignmentAuthority, problem, p) <==> !QualifiedFor(problem, p.teacher, p.subject)
    {
      EveryLesson(problem, specs, order, o, b, p);
      QualifiedLesson(problem, p);
    }
  }

  lemma SameTeaching(problem: Problem, t: Spec, p: Placement)
    requires IsLessonOf(problem, t, p)
    ensures p.teacher == t.teacher && p.subject == t.subject
  {
  }

  /** Authority is violated exactly when a task that has a lesson is not for its teacher. */
  lemma AuthorityIff(problem: Problem, specs: seq<Spec>, order: seq<Id>, o: Occupancy, b: Books<TaskKey>)
    requires WellFormed(problem) && GroupsNamed(problem) && CohortsNamed(problem) && AudiencePreflight.Feasible(problem)
    requires IsTaskList(problem, specs, order) && Sound(problem, specs, o, b)
    ensures Violates(AssignmentAuthority, problem, b.placements) <==>
              exists t | t in specs :: Taught(problem, t, b.placements) && !QualifiedFor(problem, t.teacher, t.subject)
  {
    AuthorityByLesson(problem, specs, order, o, b);
    hide WellFormed, GroupsNamed, CohortsNamed, AudiencePreflight.Feasible, IsTaskList, QualifiedFor, Sound, IsLessonOf, Violates;
    if p :| p in b.placements && !QualifiedFor(problem, p.teacher, p.subject) {
      var t := LegalHasTask(problem, specs, o, b, p);
      SameTeaching(problem, t, p);
      assert Taught(problem, t, b.placements);
    }
    if t :| t in specs && Taught(problem, t, b.placements) && !QualifiedFor(problem, t.teacher, t.subject) {
      var p :| p in b.placements && IsLessonOf(problem, t, p);
      SameTeaching(problem, t, p);
    }
  }

  /** A lesson teaches what one of its assignments asks for. */
  lemma LessonCovers(problem: Problem, specs: seq<Spec>, order: seq<Id>, o: Occupancy, b: Books<TaskKey>, p: Placement) returns (id: Id)
    requires WellFormed(problem) && GroupsNamed(problem) && CohortsNamed(problem) && AudiencePreflight.Feasible(problem)
    requires IsTaskList(problem, specs, order) && Sound(problem, specs, o, b) && p in b.placements
    ensures id in Schedule(problem) && Schedule(problem)[id].teacher == p.teacher && Schedule(problem)[id].subject == p.subject
  {
    hide WellFormed, GroupsNamed, CohortsNamed, AudiencePreflight.Feasible, IsTaskList, Sound, IsLessonOf, Schedule, Origin;
    TaskListFacts(problem, specs, order);
    var t := LegalHasTask(problem, specs, o, b, p);
    LessonAudience(problem, t, p);
    id := PrimaryId(p);
    TaskCovers(problem, specs, order, t, id);
  }

  /** And every assignment that a lesson covers asks for its teacher and subject. */
  lemma CoveredTeaching(problem: Problem, specs: seq<Spec>, order: seq<Id>, o: Occupancy, b: Books<TaskKey>, p: Placement, id: Id)
    requires WellFormed(problem) && GroupsNamed(problem) && CohortsNamed(problem) && AudiencePreflight.Feasible(problem)
    requires IsTaskList(problem, specs, order) && Sound(problem, specs, o, b) && p in b.placements && id in AssignmentIds(p)
    ensures id in Schedule(problem) && Schedule(problem)[id].teacher == p.teacher && Schedule(problem)[id].subject == p.subject
  {
    hide WellFormed, GroupsNamed, CohortsNamed, AudiencePreflight.Feasible, IsTaskList, Sound, IsLessonOf, Schedule, Origin, AssignmentIds;
    TaskListFacts(problem, specs, order);
    var t := LegalHasTask(problem, specs, o, b, p);
    LessonAudience(problem, t, p);
    TaskCovers(problem, specs, order, t, id);
  }

  /** Where every assignment is for a qualified teacher, no attempt violates authority, whenever it stops. And an attempt that places
      everything violates it exactly when some assignment is not. */
  lemma AuthorityByDemand(problem: Problem, specs: seq<Spec>, order: seq<Id>, o: Occupancy, b: Books<TaskKey>)
    requires WellFormed(problem) && GroupsNamed(problem) && CohortsNamed(problem) && AudiencePreflight.Feasible(problem)
    requires IsTaskList(problem, specs, order) && Sound(problem, specs, o, b)
    ensures QualifiedDemand(problem) ==> !Violates(AssignmentAuthority, problem, b.placements)
    ensures !AudienceAttempt.HasLeft(b.remaining) ==> (Violates(AssignmentAuthority, problem, b.placements) <==> !QualifiedDemand(problem))
  {
    AuthorityByLesson(problem, specs, order, o, b);
    hide WellFormed, GroupsNamed, CohortsNamed, AudiencePreflight.Feasible, IsTaskList, QualifiedFor, Sound, Schedule, Violates, AssignmentIds;
    if QualifiedDemand(problem) {
      forall p | p in b.placements
        ensures QualifiedFor(problem, p.teacher, p.subject)
      {
        var id := LessonCovers(problem, specs, order, o, b, p);
      }
    } else if !AudienceAttempt.HasLeft(b.remaining) {
      var id :| id in Schedule(problem) && !QualifiedFor(problem, Schedule(problem)[id].teacher, Schedule(problem)[id].subject);
      var p := PlacedLesson(problem, specs, o, b, id);
      CoveredTeaching(problem, specs, order, o, b, p, id);
    }
  }

  lemma PlacedLesson(problem: Problem, specs: seq<Spec>, o: Occupancy, b: Books<TaskKey>, id: Id) returns (p: Placement)
    requires WellFormed(problem) && Sound(problem, specs, o, b) && !AudienceAttempt.HasLeft(b.remaining) && id in Schedule(problem)
    ensures p in b.placements && id in AssignmentIds(p)
  {
    ScheduleEntries(problem);
    hide WellFormed, Sound, Schedule, AssignmentIds, AudienceAttempt.HasLeft, Credit;
    AudienceAttempt.NothingLeftMeetsDemand(problem, specs, o, b, Schedule(problem)[id]);
    CreditedHasLesson(b.placements, id);
    p :| p in b.placements && id in AssignmentIds(p) && p.periods != [];
  }

  // ----- complete attempts

  /** An attempt that places everything is valid, if its blocks are in step, its teachers qualified and its coverage is met. */
  lemma CompleteIsValid(problem: Problem, specs: seq<Spec>, order: seq<Id>, o: Occupancy, b: Books<TaskKey>, done: set<Block>)
    requires WellFormed(problem) && GroupsNamed(problem) && CohortsNamed(problem) && AudiencePreflight.Feasible(problem)
    requires IsTaskList(problem, specs, order) && Sound(problem, specs, o, b) && AudienceAttempt.AllInStep(b.placements, done) && AllDone(problem, done)
    requires !AudienceAttempt.HasLeft(b.remaining) && Exclusive(problem, b.placements) && (problem.fullCoverage ==> Covered(problem, b.placements))
    ensures ValidSchedule(problem, b.placements) <==> QualifiedDemand(problem)
  {
    hide *;
    AuthorityByDemand(problem, specs, order, o, b);
    ValidIffNothingViolated(problem, b.placements);
    forall inv | inv != AssignmentAuthority
      ensures !Violates(inv, problem, b.placements)
    {
      if inv == DemandSatisfaction || inv == CohortCoverage {
        NoLessonIsFaulty(problem, specs, order, o, b, inv);
        AllCounted(problem, b.placements);
        DemandIsMet(problem, specs, o, b);
        CountsAreMet(problem, b.placements, inv);
      } else {
        AudienceAgreesWithValidator(problem, specs, order, o, b, inv, done);
      }
    }
  }

  lemma DemandIsMet(problem: Problem, specs: seq<Spec>, o: Occupancy, b: Books<TaskKey>)
    requires WellFormed(problem) && Sound(problem, specs, o, b) && !AudienceAttempt.HasLeft(b.remaining)
    ensures !SomeDemandUnmet(problem, problem.assignments, b.placements)
  {
    hide WellFormed, Sound, AudienceAttempt.HasLeft, Credit;
    forall a | a in problem.assignments
      ensures DemandMet(problem, b.placements, a)
    {
      if Schedulable(problem, a) {
        AudienceAttempt.NothingLeftMeetsDemand(problem, specs, o, b, a);
      }
    }
  }

  lemma CountsAreMet(problem: Problem, ps: seq<Placement>, inv: Invariant)
    requires CountedOnly(problem, ps) == ps && !SomeFaulty(inv, problem, ps) && !SomeDemandUnmet(problem, problem.assignments, ps)
    requires (inv == DemandSatisfaction || inv == CohortCoverage) && (problem.fullCoverage ==> Covered(problem, ps))
    ensures !Violates(inv, problem, ps)
  {
    hide CountedOnly, SomeFaulty, SomeDemandUnmet, Covered;
  }
}

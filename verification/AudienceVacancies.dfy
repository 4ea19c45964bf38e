/** When a task can be placed, in terms of the problem and the lessons alone; and what the tasks are. */
module AudienceVacancies {
  import opened Model
  import opened Lessons
  import opened Ledger
  import opened AttemptState
  import opened Engine
  import opened Tasks
  import opened Audience
  import opened AudienceSolver
  import opened Vacancies
  import AudienceAttempt

  /** A lesson for the whole cohort. */
  predicate TakesCohort(p: Placement, c: Id, per: Id) {
    p.learners == [] && c in CohortIds(p) && per in p.periods
  }

  predicate TakesLearner(p: Placement, l: Id, per: Id) {
    l in p.learners && per in p.periods
  }

  predicate TakesGroup(p: Placement, g: Id, per: Id) {
    p.group == g && per in p.periods
  }

  predicate ListsMember(problem: Problem, p: Placement, c: Id, per: Id) {
    per in p.periods && exists l | l in p.learners :: l in problem.learners && problem.learners[l].cohort == c
  }

  /** The cohort is here and has no lesson of its own in the period; and for a lesson of the whole cohort, none of its learners has one. */
  ghost predicate CohortOpen(problem: Problem, ps: seq<Placement>, t: Spec, c: Id, per: Id) {
    && c in problem.cohorts && problem.cohorts[c].workspace == problem.workspace && per !in problem.cohorts[c].unavailable
    && (forall p | p in ps :: !TakesCohort(p, c, per))
    && (t.learners == [] ==> forall p | p in ps :: !ListsMember(problem, p, c, per))
  }

  /** The learner is an active one of this workspace and has no lesson that lists it in the period. */
  ghost predicate LearnerOpen(problem: Problem, ps: seq<Placement>, l: Id, per: Id) {
    && l in problem.learners && problem.learners[l].workspace == problem.workspace && problem.learners[l].active
    && forall p | p in ps :: !TakesLearner(p, l, per)
  }

  ghost predicate TaskVacant(problem: Problem, ps: seq<Placement>, t: Spec, per: Id) {
    && Teachable(problem, per) && TeacherFree(problem, ps, t.teacher, per)
    && (t.group != NO_ID ==> forall p | p in ps :: !TakesGroup(p, t.group, per))
    && (forall c | c in t.cohorts :: CohortOpen(problem, ps, t, c, per)) && (forall l | l in t.learners :: LearnerOpen(problem, ps, l, per))
    && (t.resource != NO_ID ==> ResourceFree(problem, ps, t.resource, per))
  }

  // ----- what the occupancy maps say

  lemma TeacherUnbooked(o: Occupancy, ps: seq<Placement>, t: Id, per: Id)
    requires Mirrors(o, ps)
    ensures (t, per) !in o.teachers <==> forall p | p in ps && p.teacher == t :: per !in p.periods
  {
    assert (t, per) in o.teachers <==> Booked(TeacherUse, ps, t, per);
    hide Mirrors, Shows, CohortIds;
  }

  lemma GroupUnbooked(o: Occupancy, ps: seq<Placement>, g: Id, per: Id)
    requires Mirrors(o, ps) && g != NO_ID
    ensures (g, per) !in o.groups <==> forall p | p in ps :: !TakesGroup(p, g, per)
  {
    assert (g, per) in o.groups <==> Booked(GroupUse, ps, g, per);
    hide Mirrors, Shows, CohortIds;
  }

  lemma LearnerUnbooked(o: Occupancy, ps: seq<Placement>, l: Id, per: Id)
    requires Mirrors(o, ps)
    ensures (l, per) !in o.learners <==> forall p | p in ps :: !TakesLearner(p, l, per)
  {
    assert (l, per) in o.learners <==> Booked(LearnerUse, ps, l, per);
    hide Mirrors, Shows, CohortIds;
  }

  lemma CohortUnbooked(o: Occupancy, ps: seq<Placement>, c: Id, per: Id)
    requires Mirrors(o, ps)
    ensures (c, per) !in o.cohorts <==> forall p | p in ps :: !TakesCohort(p, c, per)
  {
    assert (c, per) in o.cohorts <==> Booked(CohortUse, ps, c, per);
    hide Mirrors, Shows, CohortIds;
  }

  lemma MembersUnbooked(problem: Problem, o: Occupancy, ps: seq<Placement>, c: Id, per: Id)
    requires Mirrors(o, ps)
    ensures !CohortHasLearner(problem, o, c, per) <==> forall p | p in ps :: !ListsMember(problem, p, c, per)
  {
    forall l: Id
      ensures (l, per) !in o.learners <==> forall p | p in ps :: !TakesLearner(p, l, per)
    {
      LearnerUnbooked(o, ps, l, per);
    }
    hide Mirrors;
    if p :| p in ps && ListsMember(problem, p, c, per) {
      var l :| l in p.learners && l in problem.learners && problem.learners[l].cohort == c;
      assert TakesLearner(p, l, per);
    }
    if l :| l in problem.learners && problem.learners[l].cohort == c && (l, per) in o.learners {
      var p :| p in ps && TakesLearner(p, l, per);
      assert ListsMember(problem, p, c, per);
    }
  }

  lemma CohortIs(problem: Problem, o: Occupancy, ps: seq<Placement>, t: Spec, c: Id, per: Id)
    requires Mirrors(o, ps)
    ensures CohortOpen(problem, ps, t, c, per) <==> LocalCohort(problem, c) && !CohortBlocked(problem, c, per) && FreeCohort(problem, o, t, c, per)
  {
    CohortUnbooked(o, ps, c, per);
    MembersUnbooked(problem, o, ps, c, per);
    hide Mirrors, TakesCohort, ListsMember, CohortHasLearner;
  }

  lemma LearnerIs(problem: Problem, o: Occupancy, ps: seq<Placement>, l: Id, per: Id)
    requires Mirrors(o, ps)
    ensures LearnerOpen(problem, ps, l, per) <==> LocalLearner(problem, l) && (l, per) !in o.learners
  {
    LearnerUnbooked(o, ps, l, per);
    hide Mirrors, TakesLearner;
  }

  lemma ResourceIs(problem: Problem, o: Occupancy, ps: seq<Placement>, r: Id, per: Id)
    requires Mirrors(o, ps) && r != NO_ID && forall p | p in ps :: Distinct(p.periods)
    ensures ResourceFree(problem, ps, r, per) <==> OpenResource(problem, r, per) && o.resources[(r, per)] < Capacity(problem, r)
  {
    UsersAre(ps, r, per);
    assert o.resources == Bookings(ResourceUse, ps);
    hide Mirrors, Vacancies.Users, Bookings, Distinct;
  }

  lemma TeacherIs(problem: Problem, o: Occupancy, ps: seq<Placement>, t: Id, per: Id)
    requires Mirrors(o, ps)
    ensures TeacherFree(problem, ps, t, per) <==> LocalTeacher(problem, t) && !TeacherBlocked(problem, t, per) && (t, per) !in o.teachers
  {
    TeacherUnbooked(o, ps, t, per);
    hide Mirrors;
  }

  /** One cell of `canPlaceTask`. */
  lemma TaskCellIs(problem: Problem, o: Occupancy, ps: seq<Placement>, t: Spec, per: Id)
    requires WellFormed(problem) && Mirrors(o, ps) && forall p | p in ps :: Distinct(p.periods)
    ensures TaskVacant(problem, ps, t, per) <==> LocalPeople(problem, t) && FreeTaskCell(problem, o, t, per)
  {
    hide *;
    TeachableIs(problem, per);
    TeacherIs(problem, o, ps, t.teacher, per);
    if t.group != NO_ID {
      GroupUnbooked(o, ps, t.group, per);
    }
    forall c: Id
      ensures CohortOpen(problem, ps, t, c, per) <==> LocalCohort(problem, c) && !CohortBlocked(problem, c, per) && FreeCohort(problem, o, t, c, per)
    {
      CohortIs(problem, o, ps, t, c, per);
    }
    forall l: Id
      ensures LearnerOpen(problem, ps, l, per) <==> LocalLearner(problem, l) && (l, per) !in o.learners
    {
      LearnerIs(problem, o, ps, l, per);
    }
    if t.resource != NO_ID {
      ResourceIs(problem, o, ps, t.resource, per);
    }
    CellParts(problem, o, ps, t, per);
  }

  lemma CellParts(problem: Problem, o: Occupancy, ps: seq<Placement>, t: Spec, per: Id)
    requires UsableId(problem, per) <==> Teachable(problem, per)
    requires TeacherFree(problem, ps, t.teacher, per) <==> LocalTeacher(problem, t.teacher) && !TeacherBlocked(problem, t.teacher, per) && (t.teacher, per) !in o.teachers
    requires t.group != NO_ID ==> ((t.group, per) !in o.groups <==> forall p | p in ps :: !TakesGroup(p, t.group, per))
    requires forall c: Id :: CohortOpen(problem, ps, t, c, per) <==> LocalCohort(problem, c) && !CohortBlocked(problem, c, per) && FreeCohort(problem, o, t, c, per)
    requires forall l: Id :: LearnerOpen(problem, ps, l, per) <==> LocalLearner(problem, l) && (l, per) !in o.learners
    requires t.resource != NO_ID ==> (ResourceFree(problem, ps, t.resource, per) <==>
                                        OpenResource(problem, t.resource, per) && o.resources[(t.resource, per)] < Capacity(problem, t.resource))
    ensures TaskVacant(problem, ps, t, per) <==> LocalPeople(problem, t) && FreeTaskCell(problem, o, t, per)
  {
    hide Teachable, TeacherFree, LocalTeacher, TeacherBlocked, TakesGroup, CohortOpen, LocalCohort, CohortBlocked, FreeCohort, LearnerOpen, LocalLearner,
         ResourceFree, OpenResource, Capacity, PeriodById, Usable;
  }

  /** `canPlaceTask` approves exactly the tasks for which every period of the cell is vacant. */
  lemma CanPlaceTaskIff(problem: Problem, o: Occupancy, ps: seq<Placement>, t: Spec, cell: seq<Id>)
    requires WellFormed(problem) && Mirrors(o, ps) && (forall p | p in ps :: Distinct(p.periods)) && cell != []
    ensures CanPlaceTask(problem, o, t, cell) <==> forall per | per in cell :: TaskVacant(problem, ps, t, per)
  {
    hide WellFormed, Mirrors, Distinct, TaskVacant, FreeTaskCell, LocalPeople;
    forall per | per in cell
      ensures TaskVacant(problem, ps, t, per) <==> LocalPeople(problem, t) && FreeTaskCell(problem, o, t, per)
    {
      TaskCellIs(problem, o, ps, t, per);
    }
    assert cell[0] in cell;
  }

  lemma DistinctPeriods(problem: Problem, specs: seq<Spec>, o: Occupancy, b: Books<TaskKey>)
    requires Sound(problem, specs, o, b)
    ensures forall p | p in b.placements :: Distinct(p.periods)
  {
    forall p | p in b.placements
      ensures Distinct(p.periods)
    {
      hide *;
      var t := LegalHasTask(problem, specs, o, b, p);
      LessonPeriods(problem, t, p);
    }
  }

  lemma LessonPeriods(problem: Problem, t: Spec, p: Placement)
    requires IsLessonOf(problem, t, p)
    ensures Distinct(p.periods)
  {
    hide TagFits, LocalPeople, OpenFor, TaskLesson;
  }

  /** An attempt that is not stopped leaves no task with single lessons to place for which a period is vacant. */
  lemma NothingVacant(problem: Problem, specs: seq<Spec>, phase: AudienceAttempt.Phase, o: Occupancy, b: Books<TaskKey>, t: Spec, per: Id)
    requires WellFormed(problem) && AudienceAttempt.Follows(problem, specs, phase, o, b, false) && t in specs
    requires Left(b.remaining, t.key) > 0 && Left(b.doubles, t.key) == 0
    ensures !TaskVacant(problem, b.placements, t, per)
  {
    hide *;
    EndMeans(problem, specs, phase, o, b);
    DistinctPeriods(problem, specs, o, b);
    SoundMirrors(problem, specs, o, b);
    CanPlaceTaskIff(problem, o, b.placements, t, [per]);
    TeachableIs(problem, per);
    NoRoomFor(problem, specs, o, b, t, per);
    VacantIsTeachable(problem, b.placements, t, per);
  }

  lemma EndMeans(problem: Problem, specs: seq<Spec>, phase: AudienceAttempt.Phase, o: Occupancy, b: Books<TaskKey>)
    requires AudienceAttempt.Follows(problem, specs, phase, o, b, false)
    ensures Sound(problem, specs, o, b) && AudienceAttempt.NoRoomMissed(problem, specs, o, b)
    ensures AudienceAttempt.NoPairMissed(problem, specs, o, b, phase.pairs)
  {
    hide Sound, AudienceAttempt.NoRoomMissed, AudienceAttempt.NoPairMissed, AudienceAttempt.BlocksLeave, AudienceAttempt.Continues, AudienceAttempt.AllInStep;
  }

  lemma NoRoomFor(problem: Problem, specs: seq<Spec>, o: Occupancy, b: Books<TaskKey>, t: Spec, per: Id)
    requires AudienceAttempt.NoRoomMissed(problem, specs, o, b) && t in specs && Left(b.remaining, t.key) > 0 && Left(b.doubles, t.key) == 0
    ensures UsableId(problem, per) ==> !CanPlaceTask(problem, o, t, [per])
  {
    hide CanPlaceTask, UsableId;
  }

  lemma VacantIsTeachable(problem: Problem, ps: seq<Placement>, t: Spec, per: Id)
    ensures TaskVacant(problem, ps, t, per) ==> Teachable(problem, per)
  {
    hide Teachable, TeacherFree;
  }

  /** Nor does it leave a task with double lessons to place for which a pair among the disjoint adjacent pairs of the scan is vacant. */
  lemma NoPairVacant(problem: Problem, specs: seq<Spec>, phase: AudienceAttempt.Phase, o: Occupancy, b: Books<TaskKey>, t: Spec, cell: seq<Id>)
    requires WellFormed(problem) && AudienceAttempt.Follows(problem, specs, phase, o, b, false) && t in specs
    requires Left(b.remaining, t.key) > 0 && Left(b.doubles, t.key) > 0 && cell in phase.pairs && cell != []
    ensures exists per | per in cell :: !TaskVacant(problem, b.placements, t, per)
  {
    hide *;
    EndMeans(problem, specs, phase, o, b);
    DistinctPeriods(problem, specs, o, b);
    SoundMirrors(problem, specs, o, b);
    CanPlaceTaskIff(problem, o, b.placements, t, cell);
    NoPairFor(problem, specs, phase, o, b, t, cell);
  }

  lemma NoPairFor(problem: Problem, specs: seq<Spec>, phase: AudienceAttempt.Phase, o: Occupancy, b: Books<TaskKey>, t: Spec, cell: seq<Id>)
    requires AudienceAttempt.NoPairMissed(problem, specs, o, b, phase.pairs) && t in specs && cell in phase.pairs
    requires Left(b.remaining, t.key) > 0 && Left(b.doubles, t.key) > 0
    ensures !CanPlaceTask(problem, o, t, cell)
  {
    hide CanPlaceTask;
  }

  // ----- the tasks

  /** The task of a group asks for what the group asks, of its teacher and for its audience. */
  ghost predicate IsTaskOf(t: Spec, g: Group) {
    && t.key == GroupKey(g.id) && t.group == g.id && t.teacher == g.teacher && t.subject == g.subject && t.resource == g.resource
    && t.weekly == g.weekly && t.doubles == g.doubles
    && (forall id :: id in t.assignments <==> id in g.assignments && id != NO_ID) && (forall c :: c in t.cohorts <==> c in g.cohorts && c != NO_ID)
    && forall l :: l in t.learners <==> l in g.learners && l != NO_ID
  }

  /** The task for the rest of an assignment is for its whole cohort. */
  ghost predicate IsRestOf(t: Spec, a: Assignment) {
    && t.key == AssignmentKey(a.id) && t.group == NO_ID && t.assignments == [a.id] && t.teacher == a.teacher && t.cohorts == [a.cohort]
    && t.cohortSubject == a.cohortSubject && t.subject == a.subject && t.resource == a.resource && t.learners == []
  }

  ghost predicate GetsTask(problem: Problem, g: Group) {
    g.active && g.workspace == problem.workspace && g.weekly > 0 && exists id | id in g.assignments :: id != NO_ID
  }

  /** A lesson of a task is for its teacher, group, cohorts, learners and assignments, uses its resource, and belongs to the problem's term. */
  lemma LessonCarries(problem: Problem, t: Spec, p: Placement)
    requires IsLessonOf(problem, t, p)
    ensures p.teacher == t.teacher && p.group == t.group && p.cohorts == t.cohorts && p.learners == t.learners && p.assignments == t.assignments
    ensures p.subject == t.subject && p.resource == t.resource && p.cohortSubject == t.cohortSubject
    ensures p.workspace == problem.workspace && p.year == problem.year && p.term == problem.term
    ensures t.assignments != [] ==> p.assignment == t.assignments[0]
    ensures t.cohorts != [] ==> p.cohort == t.cohorts[0]
  {
    hide TagFits, WellShaped, LocalPeople, OpenFor;
  }

  ghost predicate ServesGroup(specs: seq<Spec>, g: Group) {
    exists t | t in specs :: IsTaskOf(t, g)
  }

  ghost predicate OfGroup(problem: Problem, groups: seq<Group>, t: Spec) {
    exists g | g in groups :: GetsTask(problem, g) && IsTaskOf(t, g)
  }

  ghost predicate OfRest(problem: Problem, t: Spec) {
    exists id | id in Schedule(problem) :: IsRestOf(t, Schedule(problem)[id]) && t.weekly > 0
  }

  lemma {:induction false} GroupTasks(problem: Problem, groups: seq<Group>)
    ensures forall g | g in groups && GetsTask(problem, g) :: ServesGroup(GroupSpecs(problem, groups), g)
    ensures forall t | t in GroupSpecs(problem, groups) :: OfGroup(problem, groups, t)
  {
    hide *;
    GroupSpecsMore(problem, groups);
    if groups != [] {
      var rest, last := groups[..|groups| - 1], groups[|groups| - 1];
      GroupTasks(problem, rest);
      assert groups == rest + [last];
      var before, after := GroupSpecs(problem, rest), GroupSpecs(problem, groups);
      GroupTask(problem, last);
      forall g | g in groups && GetsTask(problem, g)
        ensures ServesGroup(after, g)
      {
        if g in rest {
          ServedStill(before, after, g);
        } else {
          Served(after, GroupSpec(last), g);
        }
      }
      forall t | t in after
        ensures OfGroup(problem, groups, t)
      {
        if t in before {
          OfGroupStill(problem, rest, last, t);
        } else {
          OfLast(problem, groups, last, t);
        }
      }
    }
  }

  lemma GroupSpecsMore(problem: Problem, groups: seq<Group>)
    ensures groups == [] ==> GroupSpecs(problem, groups) == []
    ensures groups != [] ==>
              var rest, last := GroupSpecs(problem, groups[..|groups| - 1]), groups[|groups| - 1];
              GroupSpecs(problem, groups) == if Shares(problem, last) then rest + [GroupSpec(last)] else rest
  {
    hide Shares, GroupSpec;
  }

  lemma ServedStill(before: seq<Spec>, after: seq<Spec>, g: Group)
    requires ServesGroup(before, g) && forall t | t in before :: t in after
    ensures ServesGroup(after, g)
  {
    hide IsTaskOf;
  }

  lemma Served(specs: seq<Spec>, t: Spec, g: Group)
    requires t in specs && IsTaskOf(t, g)
    ensures ServesGroup(specs, g)
  {
    hide IsTaskOf;
  }

  lemma OfGroupStill(problem: Problem, groups: seq<Group>, last: Group, t: Spec)
    requires OfGroup(problem, groups, t)
    ensures OfGroup(problem, groups + [last], t)
  {
    hide IsTaskOf, GetsTask;
    var g :| g in groups && GetsTask(problem, g) && IsTaskOf(t, g);
    assert g in groups + [last];
  }

  lemma OfLast(problem: Problem, groups: seq<Group>, g: Group, t: Spec)
    requires g in groups && GetsTask(problem, g) && IsTaskOf(t, g)
    ensures OfGroup(problem, groups, t)
  {
    hide IsTaskOf, GetsTask;
  }

  lemma GroupTask(problem: Problem, g: Group)
    ensures Shares(problem, g) <==> GetsTask(problem, g)
    ensures IsTaskOf(GroupSpec(g), g)
  {
    var ids := UniqueIds(g.assignments);
    hide UniqueIds;
    if ids != [] {
      assert ids[0] in ids;
    }
  }

  lemma {:induction false} RestTasks(problem: Problem, order: seq<Id>)
    requires forall id | id in order :: id in Schedule(problem)
    ensures forall t | t in RestSpecs(problem, order) :: OfRest(problem, t)
  {
    if order != [] {
      var rest, last := order[..|order| - 1], order[|order| - 1];
      RestTasks(problem, rest);
      ScheduleIds(problem, last);
      hide Schedule;
      assert IsRestOf(RestSpec(problem, Schedule(problem)[last]), Schedule(problem)[last]);
      hide IsRestOf;
    }
  }

  lemma ScheduleIds(problem: Problem, id: Id)
    requires id in Schedule(problem)
    ensures Schedule(problem)[id].id == id
  {
    AssignmentByIdEntries(OnlySchedulable(problem, problem.assignments));
  }

  /** The tasks of a problem: one for each active group with assignments and demand, just as the group describes it, and beyond these only tasks
      for whole cohorts, each for what is left of a scheduled assignment, with its teacher and its resource. */
  lemma TasksAre(problem: Problem, specs: seq<Spec>, order: seq<Id>)
    requires IsTaskList(problem, specs, order)
    ensures forall g | g in problem.groups && GetsTask(problem, g) :: ServesGroup(specs, g)
    ensures forall t | t in specs :: OfGroup(problem, problem.groups, t) || OfRest(problem, t)
  {
    var grouped, rest := GroupSpecs(problem, problem.groups), RestSpecs(problem, order);
    GroupTasks(problem, problem.groups);
    RestTasks(problem, order);
    assert specs == grouped + rest;
    hide *;
    forall g | g in problem.groups && GetsTask(problem, g)
      ensures ServesGroup(specs, g)
    {
      ServedStill(grouped, specs, g);
    }
  }
}

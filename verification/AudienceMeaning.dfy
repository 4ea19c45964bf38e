/** What a silent audience preflight means: the conditions on the problem, counted one by one, without its task list. */
module AudienceMeaning {
  import opened Model
  import opened Lessons
  import opened Ledger
  import opened Tasks
  import opened AudiencePreflight
  import opened Counting
  import opened AudienceVacancies

  // ----- the conditions

  /** A group that the preflight looks at. */
  predicate Present(problem: Problem, g: Group) {
    g.active && g.workspace == problem.workspace
  }

  ghost predicate Scheduled(problem: Problem, a: Assignment) {
    a in problem.assignments && Schedulable(problem, a)
  }

  /** The learner is an active one of the workspace, from one of the group's cohorts. */
  predicate MayAttend(problem: Problem, g: Group, l: Id) {
    l in problem.learners && problem.learners[l].workspace == problem.workspace && problem.learners[l].active && problem.learners[l].cohort in g.cohorts
  }

  /** The assignment is scheduled, for the group's teacher and subject and for one of its cohorts. */
  ghost predicate MayShare(problem: Problem, g: Group, id: Id) {
    exists a | a in problem.assignments :: Schedulable(problem, a) && a.id == id && a.teacher == g.teacher && a.subject == g.subject && a.cohort in g.cohorts
  }

  ghost predicate GoodGroup(problem: Problem, g: Group) {
    && g.weekly > 0 && 2 * g.doubles <= g.weekly
    && g.teacher in problem.teachers && problem.teachers[g.teacher].workspace == problem.workspace
    && (forall l | l in g.learners && l != NO_ID :: MayAttend(problem, g, l))
    && forall id | id in g.assignments && id != NO_ID :: MayShare(problem, g, id)
  }

  /** The periods that groups take from an assignment, one by one. */
  ghost function Taken(problem: Problem, groups: seq<Group>, id: Id): set<(Id, int)> {
    set g, k | g in groups && Present(problem, g) && id in g.assignments && id != NO_ID && 0 <= k < g.weekly :: (g.id, k)
  }

  /** The periods of shared lessons that need the teacher or the resource. */
  ghost function SharedWork(problem: Problem, groups: seq<Group>, use: Use): set<(TaskKey, int)> {
    set g, k | g in groups && GetsTask(problem, g) && Needs(g.teacher, g.resource, use) && 0 <= k < g.weekly :: (GroupKey(g.id), k)
  }

  /** The periods that are left of the assignments that need the teacher or the resource. */
  ghost function OwnWork(problem: Problem, list: seq<Assignment>, use: Use): set<(TaskKey, int)> {
    set a, k | a in list && Schedulable(problem, a) && Needs(a.teacher, a.resource, use)
               && 0 <= k < a.weekly - |Taken(problem, problem.groups, a.id)| :: (AssignmentKey(a.id), k)
  }

  predicate Needs(teacher: Id, resource: Id, use: Use) {
    match use case OfTeacher(id) => teacher == id case OfResource(id) => resource == id && id != NO_ID
  }

  ghost function Work(problem: Problem, use: Use): set<(TaskKey, int)> {
    SharedWork(problem, problem.groups, use) + OwnWork(problem, problem.assignments, use)
  }

  /** The teacher has a free period for each period of work, and no more work than the limit; nobody knows when an unknown teacher is away. */
  ghost predicate TeacherCopes(problem: Problem, id: Id) {
    var work := |Work(problem, OfTeacher(id))|;
    if id in problem.teachers then
      work <= |FreeWeek(problem, problem.teachers[id].unavailable)| && (problem.teachers[id].workloadLimit > 0 ==> work <= problem.teachers[id].workloadLimit)
    else work <= |FreeWeek(problem, {})|
  }

  ghost predicate ResourceCopes(problem: Problem, id: Id) {
    Work(problem, OfResource(id)) != {} ==>
      && id in problem.resources && problem.resources[id].workspace == problem.workspace
      && |Work(problem, OfResource(id))| <=
           |FreeWeek(problem, problem.resources[id].unavailable)| * if problem.resources[id].capacity > 0 then problem.resources[id].capacity else 1
  }

  /** The group takes part in the timetable. */
  ghost predicate Taught(problem: Problem, id: Id) {
    exists g | g in problem.groups :: GetsTask(problem, g) && g.id == id
  }

  ghost predicate Attends(problem: Problem, id: Id, l: Id) {
    l != NO_ID && exists g | g in problem.groups :: GetsTask(problem, g) && g.id == id && l in g.learners
  }

  /** At least two groups, all of them taught, and no learner in two of them. */
  ghost predicate GoodBlock(problem: Problem, b: Block) {
    && |b.groups| >= 2 && (forall g | g in b.groups :: Taught(problem, g))
    && forall i, j, l: Id | 0 <= i < j < |b.groups| && Attends(problem, b.groups[i], l) :: !Attends(problem, b.groups[j], l)
  }

  ghost predicate InScope(problem: Problem, a: Assignment) {
    a.year == problem.year && a.term == problem.term && (a.cohort, a.cohortSubject) in problem.registrations
  }

  ghost predicate AllServed(problem: Problem) {
    && problem.workspace != NO_ID && problem.year != NO_ID && problem.term != NO_ID && FreeWeek(problem, {}) != {}
    && (forall g | g in problem.groups && Present(problem, g) :: GoodGroup(problem, g))
    && (forall a | Scheduled(problem, a) :: InScope(problem, a) && |Taken(problem, problem.groups, a.id)| <= a.weekly)
    && (forall id: Id :: TeacherCopes(problem, id)) && (forall id: Id :: ResourceCopes(problem, id))
    && (forall b | b in problem.blocks && ActiveBlock(problem, b) :: GoodBlock(problem, b))
    && (problem.fullCoverage ==> problem.learners != map[])
  }

  // ----- groups

  lemma SharesIs(problem: Problem, g: Group, id: Id)
    requires WellFormed(problem) && id != NO_ID
    ensures MayShare(problem, g, id) <==>
              id in Schedule(problem) && !Mismatched(problem, g, id) && !Outside(problem, g, id)
  {
    ScheduleEntries(problem);
    hide Schedule, WellFormed;
    if id in Schedule(problem) {
      var b := Schedule(problem)[id];
      assert b in problem.assignments && Schedulable(problem, b) && b.id == id;
    }
    hide Schedulable;
  }

  lemma GroupIs(problem: Problem, g: Group)
    requires WellFormed(problem)
    ensures (forall code :: !GroupObjects(problem, g, code)) <==> (Present(problem, g) ==> GoodGroup(problem, g))
  {
    forall id: Id | id != NO_ID
      ensures MayShare(problem, g, id) <==> id in Schedule(problem) && !Mismatched(problem, g, id) && !Outside(problem, g, id)
    {
      SharesIs(problem, g, id);
    }
    hide Schedule, WellFormed, MayShare, Mismatched, Outside;
    SharedAre(problem, g);
    MembersAre(problem, g);
    hide SomeIneligible, SomeMissing, SomeMismatched, SomeOutside;
    GroupCodes(problem, g);
    hide GroupObjects;
  }

  lemma GroupCodes(problem: Problem, g: Group)
    ensures (forall code :: !GroupObjects(problem, g, code)) <==>
              && !GroupObjects(problem, g, InvalidGroupDemand) && !GroupObjects(problem, g, InvalidDoubles) && !GroupObjects(problem, g, MissingTeacher)
              && !GroupObjects(problem, g, IneligibleLearner) && !GroupObjects(problem, g, MissingAssignment)
              && !GroupObjects(problem, g, TeacherMismatch) && !GroupObjects(problem, g, CohortMismatch)
    ensures !GroupObjects(problem, g, InvalidGroupDemand) && !GroupObjects(problem, g, InvalidDoubles) && !GroupObjects(problem, g, MissingTeacher)
            && !GroupObjects(problem, g, IneligibleLearner) && !GroupObjects(problem, g, MissingAssignment)
            && !GroupObjects(problem, g, TeacherMismatch) && !GroupObjects(problem, g, CohortMismatch) <==>
              (CountedGroup(problem, g) ==>
                 && g.weekly > 0 && g.doubles * 2 <= g.weekly && LocalTeacher(problem, g.teacher) && !SomeIneligible(problem, g)
                 && !SomeMissing(problem, g) && !SomeMismatched(problem, g) && !SomeOutside(problem, g))
  {
    hide SomeIneligible, SomeMissing, SomeMismatched, SomeOutside, LocalTeacher;
  }

  lemma SharedAre(problem: Problem, g: Group)
    requires forall id: Id | id != NO_ID :: MayShare(problem, g, id) <==> id in Schedule(problem) && !Mismatched(problem, g, id) && !Outside(problem, g, id)
    ensures !SomeMissing(problem, g) && !SomeMismatched(problem, g) && !SomeOutside(problem, g) <==>
              forall id | id in g.assignments && id != NO_ID :: MayShare(problem, g, id)
  {
    hide Schedule, MayShare, Mismatched, Outside;
    var ids := UniqueIds(g.assignments);
    hide UniqueIds;
    assert forall id :: id in ids <==> id in g.assignments && id != NO_ID;
  }

  lemma MembersAre(problem: Problem, g: Group)
    ensures !SomeIneligible(problem, g) <==> forall l | l in g.learners && l != NO_ID :: MayAttend(problem, g, l)
  {
    var ids := UniqueIds(g.learners);
    hide UniqueIds;
    assert forall l :: l in ids <==> l in g.learners && l != NO_ID;
  }

  lemma GroupsSilent(problem: Problem, groups: seq<Group>)
    requires WellFormed(problem)
    ensures (forall code :: !SomeGroupObjects(problem, groups, code)) <==> forall g | g in groups && Present(problem, g) :: GoodGroup(problem, g)
  {
    forall g: Group
      ensures (forall code :: !GroupObjects(problem, g, code)) <==> (Present(problem, g) ==> GoodGroup(problem, g))
    {
      GroupIs(problem, g);
    }
    hide GroupObjects, GoodGroup, Present;
    if forall code :: !SomeGroupObjects(problem, groups, code) {
      forall g | g in groups && Present(problem, g)
        ensures GoodGroup(problem, g)
      {
        forall code
          ensures !GroupObjects(problem, g, code)
        {
          assert !SomeGroupObjects(problem, groups, code);
        }
      }
    }
  }

  // ----- what groups take

  ghost predicate OwnIds(groups: seq<Group>) {
    forall i, j | 0 <= i < j < |groups| :: groups[i].id != groups[j].id
  }

  lemma NewId(rest: seq<Group>, g: Group)
    requires OwnIds(rest + [g])
    ensures OwnIds(rest) && forall h | h in rest :: h.id != g.id
  {
    var all := rest + [g];
    assert all[|rest|] == g && forall i | 0 <= i < |rest| :: all[i] == rest[i];
    forall h | h in rest
      ensures h.id != g.id
    {
      var i :| 0 <= i < |rest| && rest[i] == h;
      assert all[i].id != all[|rest|].id;
    }
  }

  /** Where every group asks for something, what is claimed of an assignment is what is taken of it. */
  lemma {:induction false} TakenSize(problem: Problem, groups: seq<Group>, id: Id)
    requires OwnIds(groups) && id != NO_ID
    ensures SharedPeriods(problem, groups, id) == |Taken(problem, groups, id)|
    ensures (forall g | g in groups && Present(problem, g) :: g.weekly > 0) ==> Claimed(problem, groups, id) == |Taken(problem, groups, id)|
  {
    if groups == [] {
      assert Taken(problem, groups, id) == {};
    } else {
      var rest, g := groups[..|groups| - 1], groups[|groups| - 1];
      assert groups == rest + [g];
      NewId(rest, g);
      TakenSize(problem, rest, id);
      TakenMore(problem, rest, g, id);
      TakesPart(problem, g, id);
      hide Taken, OwnIds, UniqueIds, Covers;
      assert forall h | h in rest :: h in groups;
    }
  }

  lemma TakesPart(problem: Problem, g: Group, id: Id)
    requires id != NO_ID
    ensures Covers(problem, g, id) <==> Present(problem, g) && g.weekly > 0 && id in g.assignments
    ensures CountedGroup(problem, g) && id in UniqueIds(g.assignments) <==> Present(problem, g) && id in g.assignments
  {
    var ids := UniqueIds(g.assignments);
    hide UniqueIds;
  }

  lemma TakenMore(problem: Problem, rest: seq<Group>, g: Group, id: Id)
    requires (forall h | h in rest :: h.id != g.id) && id != NO_ID
    ensures |Taken(problem, rest + [g], id)| ==
              |Taken(problem, rest, id)| + if Present(problem, g) && id in g.assignments && g.weekly > 0 then g.weekly else 0
  {
    hide Present;
    RowSize(g.id, g.weekly);
    assert forall h :: h in rest + [g] <==> h in rest || h == g;
    var before, more := Taken(problem, rest, id), Row(g.id, g.weekly);
    if Present(problem, g) && id in g.assignments {
      assert Taken(problem, rest + [g], id) == before + more;
      assert before !! more;
    } else {
      assert Taken(problem, rest + [g], id) == before;
    }
  }

  lemma GroupsHaveOwnIds(problem: Problem)
    requires GroupsNamed(problem)
    ensures OwnIds(problem.groups)
  {
  }

  lemma MergedSilent(problem: Problem)
    requires WellFormed(problem) && GroupsNamed(problem) && forall g | g in problem.groups && Present(problem, g) :: g.weekly > 0
    ensures !SomeMerged(problem) <==> forall a | Scheduled(problem, a) :: |Taken(problem, problem.groups, a.id)| <= a.weekly
  {
    ScheduleEntries(problem);
    GroupsHaveOwnIds(problem);
    hide Schedule, WellFormed, GroupsNamed, OwnIds, Schedulable;
    forall id: Id | id != NO_ID
      ensures Claimed(problem, problem.groups, id) == |Taken(problem, problem.groups, id)|
    {
      TakenSize(problem, problem.groups, id);
    }
    hide Taken, Claimed;
  }

  // ----- tasks

  /** Every scheduled assignment is covered by some task, and every task covers scheduled assignments only if its group does. */
  lemma {:induction false} RestIsThere(problem: Problem, order: seq<Id>, id: Id)
    requires (forall i | i in order :: i in Schedule(problem)) && id in order && Rest(problem, Schedule(problem)[id]) > 0
    ensures RestSpec(problem, Schedule(problem)[id]) in RestSpecs(problem, order)
  {
    hide Schedule, Rest, RestSpec;
    var rest, last := order[..|order| - 1], order[|order| - 1];
    assert order == rest + [last];
    if id in rest {
      RestIsThere(problem, rest, id);
    }
  }

  lemma SomeoneCovers(problem: Problem, specs: seq<Spec>, order: seq<Id>, a: Assignment) returns (t: Spec)
    requires WellFormed(problem) && GroupsNamed(problem) && IsTaskList(problem, specs, order) && Scheduled(problem, a)
    ensures t in specs && a.id in t.assignments && t.weekly > 0 && a.id in Schedule(problem) && Schedule(problem)[a.id] == a
  {
    TaskListFacts(problem, specs, order);
    ScheduleEntries(problem);
    GroupsHaveOwnIds(problem);
    hide Schedule, WellFormed, GroupsNamed, OwnIds;
    if g :| g in problem.groups && Covers(problem, g, a.id) {
      t := GroupSpec(g);
    } else {
      NobodyShares(problem, problem.groups, a.id);
      assert Rest(problem, a) == a.weekly > 0;
      RestIsThere(problem, order, a.id);
      t := RestSpec(problem, a);
    }
  }

  lemma {:induction false} NobodyShares(problem: Problem, groups: seq<Group>, id: Id)
    requires forall g | g in groups :: !Covers(problem, g, id)
    ensures SharedPeriods(problem, groups, id) == 0
  {
    hide Covers;
    if groups != [] {
      assert groups[|groups| - 1] in groups;
      NobodyShares(problem, groups[..|groups| - 1], id);
    }
  }

  /** Within good groups, the tasks are fine exactly when every scheduled assignment is in scope and registered. */
  lemma TasksSilent(problem: Problem, specs: seq<Spec>, order: seq<Id>)
    requires WellFormed(problem) && GroupsNamed(problem) && IsTaskList(problem, specs, order)
    requires forall g | g in problem.groups && Present(problem, g) :: 2 * g.doubles <= g.weekly
    ensures (forall code :: !SomeTaskObjects(problem, specs, code)) <==> forall a | Scheduled(problem, a) :: InScope(problem, a)
  {
    hide *;
    TaskListFacts(problem, specs, order);
    if forall a | Scheduled(problem, a) :: InScope(problem, a) {
      forall code
        ensures !SomeTaskObjects(problem, specs, code)
      {
        TasksAreFine(problem, specs, code);
      }
    }
    if forall code :: !SomeTaskObjects(problem, specs, code) {
      forall a | Scheduled(problem, a)
        ensures InScope(problem, a)
      {
        var t := SomeoneCovers(problem, specs, order, a);
        ObjectedTo(problem, specs, t, a);
      }
    }
  }

  lemma TasksAreFine(problem: Problem, specs: seq<Spec>, code: Code)
    requires WellFormed(problem) && (forall t | t in specs :: t.weekly > 0 && Origin(problem, t))
    requires forall g | g in problem.groups && Present(problem, g) :: 2 * g.doubles <= g.weekly
    requires forall a | Scheduled(problem, a) :: InScope(problem, a)
    ensures !SomeTaskObjects(problem, specs, code)
  {
    hide WellFormed, Origin, InScope, Scheduled, TaskObjects, Present;
    forall t | t in specs
      ensures !TaskObjects(problem, t, code)
    {
      TaskIsFine(problem, t, code);
    }
  }

  lemma TaskIsFine(problem: Problem, t: Spec, code: Code)
    requires WellFormed(problem) && t.weekly > 0 && Origin(problem, t)
    requires forall g | g in problem.groups && Present(problem, g) :: 2 * g.doubles <= g.weekly
    requires forall a | Scheduled(problem, a) :: InScope(problem, a)
    ensures !TaskObjects(problem, t, code)
  {
    DoublesFit(problem, t);
    ScheduleEntries(problem);
    hide WellFormed, Origin, Schedule;
    forall id | id in Schedule(problem)
      ensures InScope(problem, Schedule(problem)[id])
    {
      assert Scheduled(problem, Schedule(problem)[id]);
    }
    hide Scheduled;
  }

  lemma ObjectedTo(problem: Problem, specs: seq<Spec>, t: Spec, a: Assignment)
    requires t in specs && a.id in t.assignments && t.weekly > 0 && a.id in Schedule(problem) && Schedule(problem)[a.id] == a
    requires !SomeTaskObjects(problem, specs, OutsideScope) && !SomeTaskObjects(problem, specs, UnregisteredSubject)
    ensures InScope(problem, a)
  {
    hide Schedule;
    assert !TaskObjects(problem, t, OutsideScope) && !TaskObjects(problem, t, UnregisteredSubject);
  }

  lemma DoublesFit(problem: Problem, t: Spec)
    requires Origin(problem, t) && t.weekly > 0
    requires forall g | g in problem.groups && Present(problem, g) :: 2 * g.doubles <= g.weekly
    ensures t.doubles * 2 <= t.weekly
  {
    hide Schedule, Rest;
  }

  // ----- capacities

  /** The periods that the tasks need of somebody, one by one. */
  ghost function Units(specs: seq<Spec>, use: Use): set<(TaskKey, int)> {
    set t, k | t in specs && Uses(t, use) && 0 <= k < t.weekly :: (t.key, k)
  }

  ghost function KeyRow(key: TaskKey, n: int): set<(TaskKey, int)> {
    set k | 0 <= k < n :: (key, k)
  }

  lemma {:induction false} KeyRowSize(key: TaskKey, n: int)
    ensures |KeyRow(key, n)| == if n < 0 then 0 else n
  {
    if n <= 0 {
      assert KeyRow(key, n) == {};
    } else {
      KeyRowSize(key, n - 1);
      assert KeyRow(key, n) == KeyRow(key, n - 1) + {(key, n - 1)};
    }
  }

  lemma NewKey(rest: seq<Spec>, t: Spec)
    requires DistinctKeys(rest + [t])
    ensures DistinctKeys(rest) && forall u | u in rest :: u.key != t.key
  {
    var all := rest + [t];
    assert all[|rest|] == t && forall i | 0 <= i < |rest| :: all[i] == rest[i];
    forall u | u in rest
      ensures u.key != t.key
    {
      var i :| 0 <= i < |rest| && rest[i] == u;
      assert all[i].key != all[|rest|].key;
    }
  }

  lemma IsUnit(rest: seq<Spec>, t: Spec, use: Use, x: (TaskKey, int))
    requires forall u | u in rest :: u.key != t.key
    ensures x in Units(rest + [t], use) <==> x in Units(rest, use) || (Uses(t, use) && x in KeyRow(t.key, t.weekly))
    ensures !(x in Units(rest, use) && x in KeyRow(t.key, t.weekly))
  {
    hide Uses;
    assert forall u :: u in rest + [t] <==> u in rest || u == t;
  }

  lemma UnitsMore(rest: seq<Spec>, t: Spec, use: Use)
    requires forall u | u in rest :: u.key != t.key
    ensures |Units(rest + [t], use)| == |Units(rest, use)| + if Uses(t, use) && t.weekly > 0 then t.weekly else 0
  {
    hide *;
    KeyRowSize(t.key, t.weekly);
    var before, more := Units(rest, use), KeyRow(t.key, t.weekly);
    forall x: (TaskKey, int)
      ensures x in Units(rest + [t], use) <==> x in before || (Uses(t, use) && x in more)
      ensures !(x in before && x in more)
    {
      IsUnit(rest, t, use, x);
    }
    if Uses(t, use) {
      assert Units(rest + [t], use) == before + more;
      assert before !! more;
    } else {
      assert Units(rest + [t], use) == before;
    }
  }

  lemma {:induction false} UnitsSize(specs: seq<Spec>, use: Use)
    requires DistinctKeys(specs)
    ensures |Units(specs, use)| == Need(specs, use)
  {
    if specs == [] {
      assert Units(specs, use) == {};
    } else {
      var rest, t := specs[..|specs| - 1], specs[|specs| - 1];
      assert specs == rest + [t];
      NewKey(rest, t);
      UnitsSize(rest, use);
      UnitsMore(rest, t, use);
      assert Uses(t, use) ==> t.weekly > 0;
      hide Units, DistinctKeys, Uses;
    }
  }

  /** A task needs what its group or its assignment needs. */
  lemma UnitsAreWork(problem: Problem, specs: seq<Spec>, order: seq<Id>, use: Use)
    requires WellFormed(problem) && GroupsNamed(problem) && IsTaskList(problem, specs, order)
    ensures Units(specs, use) == Work(problem, use)
  {
    TaskListFacts(problem, specs, order);
    forall t, k | t in specs && Uses(t, use) && 0 <= k < t.weekly
      ensures (t.key, k) in Work(problem, use)
    {
      UnitIsWork(problem, t, k, use);
    }
    forall g, k | g in problem.groups && GetsTask(problem, g) && Needs(g.teacher, g.resource, use) && 0 <= k < g.weekly
      ensures (GroupKey(g.id), k) in Units(specs, use)
    {
      GroupTask(problem, g);
      InUnits(specs, GroupSpec(g), k, use);
    }
    forall a, k | a in problem.assignments && Schedulable(problem, a) && Needs(a.teacher, a.resource, use)
                  && 0 <= k < a.weekly - |Taken(problem, problem.groups, a.id)|
      ensures (AssignmentKey(a.id), k) in Units(specs, use)
    {
      RestHasUnit(problem, specs, order, a, k, use);
    }
    hide Taken, Uses, Needs, Schedulable, GetsTask, WellFormed, GroupsNamed, IsTaskList, DistinctKeys, Tidy, Origin;
  }

  lemma InUnits(specs: seq<Spec>, t: Spec, k: int, use: Use)
    requires t in specs && Needs(t.teacher, t.resource, use) && 0 <= k < t.weekly
    ensures (t.key, k) in Units(specs, use)
  {
    assert Uses(t, use);
    hide Uses, Needs;
  }

  lemma RestHasUnit(problem: Problem, specs: seq<Spec>, order: seq<Id>, a: Assignment, k: int, use: Use)
    requires WellFormed(problem) && GroupsNamed(problem) && IsTaskList(problem, specs, order)
    requires a in problem.assignments && Schedulable(problem, a) && Needs(a.teacher, a.resource, use)
    requires 0 <= k < a.weekly - |Taken(problem, problem.groups, a.id)|
    ensures (AssignmentKey(a.id), k) in Units(specs, use)
  {
    ScheduleEntries(problem);
    GroupsHaveOwnIds(problem);
    hide Schedule, WellFormed, GroupsNamed, Needs, Taken, GroupSpecs, RestSpecs, OwnIds;
    TakenSize(problem, problem.groups, a.id);
    assert Rest(problem, a) == a.weekly - |Taken(problem, problem.groups, a.id)|;
    RestIsThere(problem, order, a.id);
    InUnits(specs, RestSpec(problem, a), k, use);
  }

  lemma UnitIsWork(problem: Problem, t: Spec, k: int, use: Use)
    requires WellFormed(problem) && GroupsNamed(problem) && Origin(problem, t) && Uses(t, use) && 0 <= k < t.weekly
    ensures (t.key, k) in Work(problem, use)
  {
    hide WellFormed, GroupsNamed, Schedule, Work, Uses, Shares, GroupSpec, RestSpec, Rest;
    if g :| g in problem.groups && Shares(problem, g) && t == GroupSpec(g) {
      UnitOfGroup(problem, g, k, use);
    } else {
      var id :| id in Schedule(problem) && t == RestSpec(problem, Schedule(problem)[id]);
      UnitOfRest(problem, id, k, use);
    }
  }

  lemma UnitOfGroup(problem: Problem, g: Group, k: int, use: Use)
    requires g in problem.groups && Shares(problem, g) && Uses(GroupSpec(g), use) && 0 <= k < GroupSpec(g).weekly
    ensures (GroupSpec(g).key, k) in Work(problem, use)
  {
    GroupTask(problem, g);
    hide GetsTask, OwnWork;
  }

  lemma UnitOfRest(problem: Problem, id: Id, k: int, use: Use)
    requires WellFormed(problem) && GroupsNamed(problem) && id in Schedule(problem)
    requires Uses(RestSpec(problem, Schedule(problem)[id]), use) && 0 <= k < RestSpec(problem, Schedule(problem)[id]).weekly
    ensures (RestSpec(problem, Schedule(problem)[id]).key, k) in Work(problem, use)
  {
    ScheduleEntries(problem);
    GroupsHaveOwnIds(problem);
    hide Schedule, WellFormed, GroupsNamed, Taken, OwnIds, SharedWork;
    TakenSize(problem, problem.groups, id);
  }

  // ----- shortages

  lemma WorkIs(problem: Problem, specs: seq<Spec>, order: seq<Id>, use: Use)
    requires WellFormed(problem) && GroupsNamed(problem) && IsTaskList(problem, specs, order)
    ensures |Work(problem, use)| == Need(specs, use)
    ensures Work(problem, use) != {} <==> exists t | t in specs :: Uses(t, use)
  {
    TaskListFacts(problem, specs, order);
    UnitsAreWork(problem, specs, order, use);
    UnitsSize(specs, use);
    hide *;
    SomeUnit(specs, use);
  }

  lemma SomeUnit(specs: seq<Spec>, use: Use)
    ensures Units(specs, use) != {} <==> exists t | t in specs :: Uses(t, use)
  {
    if t :| t in specs && Uses(t, use) {
      assert (t.key, 0) in Units(specs, use);
    }
    hide Uses;
  }

  lemma WholeWeek(problem: Problem)
    requires WellFormed(problem)
    ensures |FreeWeek(problem, {})| == |UsablePeriods(problem)|
  {
    FreeWeekSize(problem, {});
    hide WellFormed, FreeWeek, UsablePeriods;
    AllAvailable(UsablePeriods(problem));
  }

  lemma ShortIs(problem: Problem, specs: seq<Spec>, order: seq<Id>, id: Id)
    requires WellFormed(problem) && GroupsNamed(problem) && IsTaskList(problem, specs, order)
    ensures !Short(problem, specs, OfTeacher(id)) <==> TeacherCopes(problem, id)
    ensures !Short(problem, specs, OfResource(id)) <==> ResourceCopes(problem, id)
  {
    hide *;
    WorkIs(problem, specs, order, OfTeacher(id));
    WorkIs(problem, specs, order, OfResource(id));
    WholeWeek(problem);
    if id in problem.teachers {
      CapIsBound(problem, problem.teachers[id], |Work(problem, OfTeacher(id))|);
    }
    if id in problem.resources {
      FreeWeekSize(problem, problem.resources[id].unavailable);
    }
    TeacherShort(problem, specs, id);
    ResourceShort(problem, specs, id);
  }

  lemma TeacherShort(problem: Problem, specs: seq<Spec>, id: Id)
    requires var work := Work(problem, OfTeacher(id));
             && |work| == Need(specs, OfTeacher(id)) && (work != {} <==> exists t | t in specs :: Uses(t, OfTeacher(id)))
             && |FreeWeek(problem, {})| == |UsablePeriods(problem)|
             && (id in problem.teachers ==>
                   var t := problem.teachers[id];
                   && (|work| <= WorkloadCap(problem, t) <==> |work| <= |FreeWeek(problem, t.unavailable)| && (t.workloadLimit > 0 ==> |work| <= t.workloadLimit))
                   && WorkloadCap(problem, t) >= 0)
    ensures !Short(problem, specs, OfTeacher(id)) <==> TeacherCopes(problem, id)
  {
    hide Work, FreeWeek, UsablePeriods, WorkloadCap, Need, Uses;
  }

  lemma ResourceShort(problem: Problem, specs: seq<Spec>, id: Id)
    requires var work := Work(problem, OfResource(id));
             && |work| == Need(specs, OfResource(id)) && (work != {} <==> exists t | t in specs :: Uses(t, OfResource(id)))
             && (id in problem.resources ==>
                   |FreeWeek(problem, problem.resources[id].unavailable)| == AvailableCount(UsablePeriods(problem), problem.resources[id].unavailable))
    ensures !Short(problem, specs, OfResource(id)) <==> ResourceCopes(problem, id)
  {
    hide Work, FreeWeek, UsablePeriods, AvailableCount, Need, Uses;
  }

  lemma ShortagesSilent(problem: Problem, specs: seq<Spec>, order: seq<Id>)
    requires WellFormed(problem) && GroupsNamed(problem) && IsTaskList(problem, specs, order)
    ensures (forall code :: !SomeShort(problem, specs, code)) <==>
              (forall id: Id :: TeacherCopes(problem, id)) && forall id: Id :: ResourceCopes(problem, id)
  {
    forall id: Id
      ensures !Short(problem, specs, OfTeacher(id)) <==> TeacherCopes(problem, id)
      ensures !Short(problem, specs, OfResource(id)) <==> ResourceCopes(problem, id)
    {
      ShortIs(problem, specs, order, id);
    }
    hide WellFormed, GroupsNamed, IsTaskList, Short, TeacherCopes, ResourceCopes;
    assert (forall code :: !SomeShort(problem, specs, code)) ==> !SomeShort(problem, specs, TeacherCapacity) && !SomeShort(problem, specs, ResourceCapacity);
  }

  // ----- blocks

  lemma TaskOfGroup(problem: Problem, specs: seq<Spec>, order: seq<Id>, g: Id)
    requires WellFormed(problem) && GroupsNamed(problem) && IsTaskList(problem, specs, order)
    ensures HasTask(specs, g) <==> Taught(problem, g)
    ensures forall l: Id :: Lists(specs, g, l) <==> Attends(problem, g, l)
  {
    hide *;
    TaskListFacts(problem, specs, order);
    forall h | h in problem.groups && GetsTask(problem, h)
      ensures GroupSpec(h) in specs && IsTaskOf(GroupSpec(h), h)
    {
      GroupTask(problem, h);
    }
    forall t | t in specs && t.key == GroupKey(g)
      ensures FromGroup(problem, g, t)
    {
      KeyIsGroups(problem, t, g);
    }
    TasksOfGroups(problem, specs, g);
  }

  ghost predicate FromGroup(problem: Problem, g: Id, t: Spec) {
    exists h | h in problem.groups :: GetsTask(problem, h) && h.id == g && IsTaskOf(t, h)
  }

  lemma TasksOfGroups(problem: Problem, specs: seq<Spec>, g: Id)
    requires forall h | h in problem.groups && GetsTask(problem, h) :: GroupSpec(h) in specs && IsTaskOf(GroupSpec(h), h)
    requires forall t | t in specs && t.key == GroupKey(g) :: FromGroup(problem, g, t)
    ensures HasTask(specs, g) <==> Taught(problem, g)
    ensures forall l: Id :: Lists(specs, g, l) <==> Attends(problem, g, l)
  {
    hide GetsTask, GroupSpec;
    forall l: Id
      ensures Lists(specs, g, l) <==> Attends(problem, g, l)
    {
    }
  }

  lemma KeyIsGroups(problem: Problem, t: Spec, g: Id)
    requires Origin(problem, t) && t.key == GroupKey(g)
    ensures FromGroup(problem, g, t)
  {
    hide Schedule, Rest, UniqueIds;
    var h :| h in problem.groups && Shares(problem, h) && t == GroupSpec(h);
    GroupTask(problem, h);
  }

  lemma BlockIs(problem: Problem, specs: seq<Spec>, order: seq<Id>, b: Block)
    requires WellFormed(problem) && GroupsNamed(problem) && IsTaskList(problem, specs, order)
    ensures (forall code :: !BlockObjects(problem, specs, b, code)) <==> (ActiveBlock(problem, b) ==> GoodBlock(problem, b))
  {
    forall g: Id
      ensures HasTask(specs, g) <==> Taught(problem, g)
    {
      TaskOfGroup(problem, specs, order, g);
    }
    forall g: Id, l: Id
      ensures Lists(specs, g, l) <==> Attends(problem, g, l)
    {
      TaskOfGroup(problem, specs, order, g);
    }
    hide WellFormed, GroupsNamed, IsTaskList, HasTask, Lists, Taught, Attends;
    OverlapIs(problem, specs, b);
    hide SomeOverlap;
    BlockCodes(problem, specs, b);
    hide BlockObjects;
  }

  lemma BlockCodes(problem: Problem, specs: seq<Spec>, b: Block)
    ensures (forall code :: !BlockObjects(problem, specs, b, code)) <==>
              && !BlockObjects(problem, specs, b, BlockTooSmall) && !BlockObjects(problem, specs, b, BlockGroupMissing)
              && !BlockObjects(problem, specs, b, LearnerOverlap)
    ensures !BlockObjects(problem, specs, b, BlockTooSmall) && !BlockObjects(problem, specs, b, BlockGroupMissing)
            && !BlockObjects(problem, specs, b, LearnerOverlap) <==>
              (ActiveBlock(problem, b) ==> |b.groups| >= 2 && !SomeGroupMissing(specs, b) && !SomeOverlap(specs, b.groups))
  {
    hide SomeGroupMissing, SomeOverlap;
  }

  lemma OverlapIs(problem: Problem, specs: seq<Spec>, b: Block)
    requires forall g: Id, l: Id :: Lists(specs, g, l) <==> Attends(problem, g, l)
    ensures !SomeOverlap(specs, b.groups) <==>
              forall i, j, l: Id | 0 <= i < j < |b.groups| && Attends(problem, b.groups[i], l) :: !Attends(problem, b.groups[j], l)
  {
    hide Lists, Attends;
    if !SomeOverlap(specs, b.groups) {
      forall i, j, l: Id | 0 <= i < j < |b.groups| && Attends(problem, b.groups[i], l)
        ensures !Attends(problem, b.groups[j], l)
      {
        assert !Overlaps(specs, b.groups, i, j);
        assert Lists(specs, b.groups[i], l) && (Lists(specs, b.groups[j], l) <==> Attends(problem, b.groups[j], l));
      }
    }
    if i: nat, j: nat :| Overlaps(specs, b.groups, i, j) {
      var l: Id :| Lists(specs, b.groups[i], l) && Lists(specs, b.groups[j], l);
      assert Attends(problem, b.groups[i], l) && Attends(problem, b.groups[j], l);
    }
  }

  lemma BlocksSilent(problem: Problem, specs: seq<Spec>, order: seq<Id>)
    requires WellFormed(problem) && GroupsNamed(problem) && IsTaskList(problem, specs, order)
    ensures (forall code :: !SomeBlockObjects(problem, specs, problem.blocks, code)) <==>
              forall b | b in problem.blocks && ActiveBlock(problem, b) :: GoodBlock(problem, b)
  {
    forall b
      ensures (forall code :: !BlockObjects(problem, specs, b, code)) <==> (ActiveBlock(problem, b) ==> GoodBlock(problem, b))
    {
      BlockIs(problem, specs, order, b);
    }
    hide WellFormed, GroupsNamed, IsTaskList, BlockObjects, GoodBlock, ActiveBlock;
    if forall code :: !SomeBlockObjects(problem, specs, problem.blocks, code) {
      forall b | b in problem.blocks && ActiveBlock(problem, b)
        ensures GoodBlock(problem, b)
      {
        forall code
          ensures !BlockObjects(problem, specs, b, code)
        {
          assert !SomeBlockObjects(problem, specs, problem.blocks, code);
        }
      }
    }
  }

  // ----- the whole preflight

  lemma Enumerated(ids: set<Id>) returns (order: seq<Id>)
    ensures Distinct(order) && forall id :: id in order <==> id in ids
    decreases ids
  {
    if ids == {} {
      order := [];
    } else {
      var id :| id in ids;
      var rest := Enumerated(ids - {id});
      order := [id] + rest;
    }
  }

  lemma ObjectsAre(problem: Problem, specs: seq<Spec>)
    ensures (forall code :: !Objects(problem, specs, code)) <==>
              && problem.workspace != NO_ID && problem.year != NO_ID && problem.term != NO_ID && UsablePeriods(problem) != []
              && (forall code :: !SomeGroupObjects(problem, problem.groups, code)) && !SomeMerged(problem)
              && (forall code :: !SomeTaskObjects(problem, specs, code)) && (forall code :: !SomeShort(problem, specs, code))
              && (forall code :: !SomeBlockObjects(problem, specs, problem.blocks, code)) && (problem.fullCoverage ==> problem.learners != map[])
  {
    CodesApart(problem, specs, MissingScope);
    CodesApart(problem, specs, NoUsablePeriods);
    hide SomeGroupObjects, SomeMerged, SomeTaskObjects, SomeShort, SomeBlockObjects, UsablePeriods;
    if forall code :: !Objects(problem, specs, code) {
      assert !Objects(problem, specs, MissingScope) && !Objects(problem, specs, NoUsablePeriods);
      assert !Objects(problem, specs, MergedDemand) && !Objects(problem, specs, CoverageData);
      forall code
        ensures !SomeGroupObjects(problem, problem.groups, code) && !SomeTaskObjects(problem, specs, code)
        ensures !SomeShort(problem, specs, code) && !SomeBlockObjects(problem, specs, problem.blocks, code)
      {
        assert !Objects(problem, specs, code);
      }
    }
  }

  /** The audience preflight is silent exactly when there is a scope and a week, every group is sensible, groups claim no more of any
      assignment than it has, every scheduled assignment is in scope and registered, every teacher and every resource copes with the
      shared lessons and what they leave, every block has groups that are taught and share no learner, and full coverage has learners. */
  lemma ServedIff(problem: Problem)
    requires WellFormed(problem) && GroupsNamed(problem)
    ensures AudiencePreflight.Feasible(problem) <==> AllServed(problem)
  {
    hide *;
    var order := Enumerated(Schedule(problem).Keys);
    var specs := TheTasks(problem, order);
    SilentIsFeasible(problem, specs, order);
    ObjectsAre(problem, specs);
    GroupsSilent(problem, problem.groups);
    GoodGroups(problem);
    if forall g | g in problem.groups && Present(problem, g) :: GoodGroup(problem, g) {
      MergedSilent(problem);
      TasksSilent(problem, specs, order);
    }
    ShortagesSilent(problem, specs, order);
    BlocksSilent(problem, specs, order);
    WholeWeek(problem);
    ServedIs(problem);
  }

  lemma TheTasks(problem: Problem, order: seq<Id>) returns (specs: seq<Spec>)
    requires Distinct(order) && forall id :: id in order <==> id in Schedule(problem)
    ensures IsTaskList(problem, specs, order)
  {
    hide Schedule;
    specs := GroupSpecs(problem, problem.groups) + RestSpecs(problem, order);
  }

  lemma GoodGroups(problem: Problem)
    ensures (forall g | g in problem.groups && Present(problem, g) :: GoodGroup(problem, g)) ==>
              forall g | g in problem.groups && Present(problem, g) :: g.weekly > 0 && 2 * g.doubles <= g.weekly
  {
    hide Present, MayShare, MayAttend;
  }

  lemma ServedIs(problem: Problem)
    ensures AllServed(problem) <==>
              && problem.workspace != NO_ID && problem.year != NO_ID && problem.term != NO_ID && |FreeWeek(problem, {})| > 0
              && (forall g | g in problem.groups && Present(problem, g) :: GoodGroup(problem, g))
              && (forall a | Scheduled(problem, a) :: InScope(problem, a))
              && (forall a | Scheduled(problem, a) :: |Taken(problem, problem.groups, a.id)| <= a.weekly)
              && (forall id: Id :: TeacherCopes(problem, id)) && (forall id: Id :: ResourceCopes(problem, id))
              && (forall b | b in problem.blocks && ActiveBlock(problem, b) :: GoodBlock(problem, b))
              && (problem.fullCoverage ==> problem.learners != map[])
  {
    hide FreeWeek, Present, GoodGroup, Scheduled, InScope, Taken, TeacherCopes, ResourceCopes, ActiveBlock, GoodBlock;
  }
}

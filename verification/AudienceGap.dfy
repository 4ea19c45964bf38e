/** What the audience preflight lets through: a parallel block whose groups share a teacher or a resource, a block of uneven demand, and
    teachers who are not qualified. */
module AudienceGap {
  import opened Model
  import opened Lessons
  import opened Ledger
  import opened AttemptState
  import opened Tasks
  import opened Audience
  import opened AudienceSolver
  import opened AudiencePreflight
  import opened SmallWeek
  import Validator
  import Simultaneity

  /** What is wrong with the problem. */
  datatype Gap = SharedTeacher | SharedRoom | Unqualified | Uneven

  /** Both groups of the first problem have the first teacher. */
  function TeacherTwo(gap: Gap): Id {
    if gap.SharedTeacher? then 1 else 2
  }

  function RoomOf(gap: Gap): Id {
    if gap.SharedRoom? then 1 else NO_ID
  }

  function Qualified(gap: Gap): set<Id> {
    if gap.Unqualified? then {2} else {}
  }

  /** What the second group asks for. */
  function WeeklyTwo(gap: Gap): int {
    if gap.Uneven? then 2 else 1
  }

  function FirstCourse(): Assignment {
    Assignment(1, 1, 1, 1, 1, 1, 1, 1, NO_ID, 1, 0, true, true)
  }

  function SecondCourse(gap: Gap): Assignment {
    Assignment(2, 1, 1, 1, TeacherTwo(gap), 2, 2, 1, NO_ID, WeeklyTwo(gap), 0, true, true)
  }

  function GroupOne(gap: Gap): Group {
    Group(1, 1, 1, 1, [1], [1], [1], RoomOf(gap), 1, 0, true, true)
  }

  function GroupTwo(gap: Gap): Group {
    Group(2, 1, TeacherTwo(gap), 1, [2], [2], [2], RoomOf(gap), WeeklyTwo(gap), 0, true, true)
  }

  /** Two teachers, two cohorts of one learner each, one room for one lesson at a time, two periods, and a block of two groups. */
  function Example(gap: Gap): Problem {
    Problem(1, 1, 1, [MORNING, NOON], map[1 := Teacher(1, 1, 0, {}, Qualified(gap)), 2 := Teacher(2, 1, 0, {}, Qualified(gap))],
            map[1 := Cohort(1, 1, {}), 2 := Cohort(2, 1, {})],
            map[1 := Learner(1, 1, 1, true), 2 := Learner(2, 1, 2, true)], map[1 := Resource(1, 1, 1, {})],
            [FirstCourse(), SecondCourse(gap)], [GroupOne(gap), GroupTwo(gap)], [Block(1, 1, [1, 2], true)], {(1, 1), (2, 2)}, false, [])
  }

  function One(gap: Gap): Spec {
    Spec(GroupKey(1), 1, [1], 1, [1], NO_ID, 1, RoomOf(gap), [1], 1, 0)
  }

  function Two(gap: Gap): Spec {
    Spec(GroupKey(2), 2, [2], TeacherTwo(gap), [2], NO_ID, 1, RoomOf(gap), [2], WeeklyTwo(gap), 0)
  }

  function Both(gap: Gap): seq<Spec> {
    [One(gap), Two(gap)]
  }

  lemma ScheduleOfTwo(problem: Problem, a: Assignment, b: Assignment)
    requires problem.assignments == [a, b] && Schedulable(problem, a) && Schedulable(problem, b)
    ensures Schedule(problem) == map[a.id := a][b.id := b]
  {
    var list := [a, b];
    assert list[..1] == [a] && list[..1][..0] == [];
    assert OnlySchedulable(problem, [a]) == [a];
    assert OnlySchedulable(problem, list) == [a, b];
    assert AssignmentById([a]) == map[a.id := a];
  }

  lemma TheNumbers(gap: Gap)
    ensures WellFormed(Example(gap)) && GroupsNamed(Example(gap))
  {
  }

  lemma TheSchedule(gap: Gap)
    ensures Schedule(Example(gap)) == map[1 := FirstCourse(), 2 := SecondCourse(gap)] && WellFormed(Example(gap)) && GroupsNamed(Example(gap))
  {
    TheNumbers(gap);
    assert Example(gap).assignments == [FirstCourse(), SecondCourse(gap)];
    assert Schedulable(Example(gap), FirstCourse()) && Schedulable(Example(gap), SecondCourse(gap));
    hide Example, Schedule, WellFormed, GroupsNamed;
    ScheduleOfTwo(Example(gap), FirstCourse(), SecondCourse(gap));
  }

  lemma TheSpecs(gap: Gap)
    ensures GroupSpec(GroupOne(gap)) == One(gap) && GroupSpec(GroupTwo(gap)) == Two(gap) && Shares(Example(gap), GroupOne(gap)) && Shares(Example(gap), GroupTwo(gap))
    ensures GroupSpecs(Example(gap), [GroupOne(gap), GroupTwo(gap)]) == Both(gap)
  {
    Single(1);
    Single(2);
    hide UniqueIds;
    var list := [GroupOne(gap), GroupTwo(gap)];
    assert list[..1] == [GroupOne(gap)] && list[..1][..0] == [];
    assert GroupSpecs(Example(gap), [GroupOne(gap)]) == [One(gap)];
  }

  lemma TheShares(gap: Gap, id: Id)
    requires id == 1 || id == 2
    ensures var asked := if id == 2 then WeeklyTwo(gap) else 1;
            SharedPeriods(Example(gap), [GroupOne(gap), GroupTwo(gap)], id) == asked && Claimed(Example(gap), [GroupOne(gap), GroupTwo(gap)], id) == asked
  {
    Single(1);
    Single(2);
    hide UniqueIds;
    var list := [GroupOne(gap), GroupTwo(gap)];
    assert list[..1] == [GroupOne(gap)] && list[..1][..0] == [];
    assert SharedPeriods(Example(gap), [GroupOne(gap)], id) == (if id == 1 then 1 else 0) == Claimed(Example(gap), [GroupOne(gap)], id);
  }

  lemma NothingRests(gap: Gap)
    ensures Rest(Example(gap), FirstCourse()) == 0 && Rest(Example(gap), SecondCourse(gap)) == 0
  {
    TheShares(gap, 1);
    TheShares(gap, 2);
    assert Example(gap).groups == [GroupOne(gap), GroupTwo(gap)];
    hide Example, SharedPeriods;
  }

  lemma NoRestSpecs(gap: Gap)
    ensures 1 in Schedule(Example(gap)) && 2 in Schedule(Example(gap)) && RestSpecs(Example(gap), [1, 2]) == []
  {
    TheSchedule(gap);
    NothingRests(gap);
    hide Example, Schedule, WellFormed, GroupsNamed, Rest;
    var order: seq<Id> := [1, 2];
    assert order[..1] == [1] && order[..1][..0] == [];
    assert RestSpecs(Example(gap), [1]) == [];
  }

  lemma TheTasks(gap: Gap)
    ensures IsTaskList(Example(gap), Both(gap), [1, 2])
  {
    hide *;
    TheNames(gap);
    NoRestSpecs(gap);
    GroupsMakeBoth(gap);
    NowTasks(Example(gap), Both(gap));
  }

  lemma TheNames(gap: Gap)
    ensures Schedule(Example(gap)).Keys == {1, 2}
  {
    TheSchedule(gap);
    hide Example, Schedule;
  }

  lemma GroupsMakeBoth(gap: Gap)
    ensures GroupSpecs(Example(gap), Example(gap).groups) == Both(gap)
  {
    TheSpecs(gap);
    assert Example(gap).groups == [GroupOne(gap), GroupTwo(gap)];
    hide Example, GroupSpecs;
  }

  lemma NowTasks(problem: Problem, specs: seq<Spec>)
    requires Schedule(problem).Keys == {1, 2} && RestSpecs(problem, [1, 2]) == [] && GroupSpecs(problem, problem.groups) == specs
    ensures IsTaskList(problem, specs, [1, 2])
  {
    hide Schedule, RestSpecs, GroupSpecs;
    assert specs + [] == specs;
    forall id: Id
      ensures id in [1, 2] <==> id in Schedule(problem)
    {
      assert id in Schedule(problem) <==> id in Schedule(problem).Keys;
    }
  }

  lemma MembersAreFine(gap: Gap, g: Group)
    requires g == GroupOne(gap) || g == GroupTwo(gap)
    ensures !SomeIneligible(Example(gap), g)
  {
    Single(1);
    Single(2);
    assert Example(gap).learners == map[1 := Learner(1, 1, 1, true), 2 := Learner(2, 1, 2, true)] && Example(gap).workspace == 1;
    hide Example, UniqueIds;
  }

  lemma CoversAreFine(gap: Gap, g: Group)
    requires g == GroupOne(gap) || g == GroupTwo(gap)
    ensures !SomeMissing(Example(gap), g) && !SomeMismatched(Example(gap), g) && !SomeOutside(Example(gap), g)
  {
    TheSchedule(gap);
    Single(1);
    Single(2);
    hide Example, Schedule, WellFormed, GroupsNamed, UniqueIds;
    forall id | id in UniqueIds(g.assignments)
      ensures id in Schedule(Example(gap)) && !Mismatched(Example(gap), g, id) && !Outside(Example(gap), g, id)
    {
    }
    hide Mismatched, Outside;
  }

  lemma GroupsAreFine(gap: Gap, g: Group, code: Code)
    requires g == GroupOne(gap) || g == GroupTwo(gap)
    ensures !GroupObjects(Example(gap), g, code)
  {
    assert LocalTeacher(Example(gap), 1) && LocalTeacher(Example(gap), 2);
    hide Example, LocalTeacher, SomeIneligible, SomeMissing, SomeMismatched, SomeOutside;
    MembersAreFine(gap, g);
    CoversAreFine(gap, g);
  }

  lemma TasksAreFine(gap: Gap, t: Spec, code: Code)
    requires t == One(gap) || t == Two(gap)
    ensures !TaskObjects(Example(gap), t, code)
  {
    TheSchedule(gap);
    assert Example(gap).registrations == {(1, 1), (2, 2)} && Example(gap).year == 1 && Example(gap).term == 1;
    hide Example, Schedule, WellFormed, GroupsNamed, UniqueIds;
    forall id | id in t.assignments
      ensures !OutOfScope(Example(gap), id) && !Unregistered(Example(gap), id)
    {
    }
  }

  lemma ThePeriods(gap: Gap)
    ensures UsablePeriods(Example(gap)) != [] && AvailableCount(UsablePeriods(Example(gap)), {}) == 2
    ensures PeriodById(Example(gap).periods) == map[1 := MORNING, 2 := NOON]
  {
    TheWeek(Example(gap));
    hide UsablePeriods, AvailableCount, PeriodById;
  }

  lemma TheNeed(gap: Gap, use: Use)
    ensures Need(Both(gap), use) <= 2
    ensures (exists t | t in Both(gap) :: Uses(t, use)) ==> use == OfTeacher(1) || use == OfTeacher(2) || use == OfResource(1)
  {
    var specs := Both(gap);
    assert specs[..1] == [One(gap)] && specs[..1][..0] == [];
    assert Need([One(gap)], use) <= 1;
  }

  lemma EnoughOfAll(gap: Gap, use: Use)
    requires use == OfTeacher(1) || use == OfTeacher(2) || use == OfResource(1)
    ensures Capability(Example(gap), use) == 2
  {
    ThePeriods(gap);
    hide UsablePeriods, AvailableCount, PeriodById, Qualified;
  }

  lemma NobodyIsShort(gap: Gap, use: Use)
    ensures !Short(Example(gap), Both(gap), use)
  {
    TheNeed(gap, use);
    hide Example, Both, Need, Uses, Capability;
    if exists t | t in Both(gap) :: Uses(t, use) {
      EnoughOfAll(gap, use);
    }
  }

  lemma TheBlockIsFine(gap: Gap, code: Code)
    ensures !SomeBlockObjects(Example(gap), Both(gap), Example(gap).blocks, code)
  {
    var specs := Both(gap);
    assert One(gap) in specs && Two(gap) in specs;
    assert HasTask(specs, 1) && HasTask(specs, 2);
    forall i: nat, j: nat
      ensures !Overlaps(specs, [1, 2], i, j)
    {
    }
    assert Example(gap).blocks == [Block(1, 1, [1, 2], true)];
    hide Example, Overlaps, HasTask;
  }

  /** The preflight accepts the problem. */
  lemma PreflightAccepts(gap: Gap)
    ensures WellFormed(Example(gap)) && GroupsNamed(Example(gap)) && Feasible(Example(gap))
  {
    TheTasks(gap);
    TheSchedule(gap);
    ThePeriods(gap);
    hide Schedule, WellFormed, GroupsNamed, IsTaskList, UsablePeriods;
    forall code
      ensures !Objects(Example(gap), Both(gap), code)
    {
      NothingRaised(gap, code);
    }
    SilentIsFeasible(Example(gap), Both(gap), [1, 2]);
  }

  lemma NothingRaised(gap: Gap, code: Code)
    ensures !Objects(Example(gap), Both(gap), code)
  {
    hide *;
    ThePeriods(gap);
    NoGroupObjects(gap, code);
    NoTaskObjects(gap, code);
    TheBlockIsFine(gap, code);
    NothingMerged(gap);
    NobodyShort(gap, code);
    NoObjection(gap, code);
  }

  lemma NoGroupObjects(gap: Gap, code: Code)
    ensures !SomeGroupObjects(Example(gap), Example(gap).groups, code)
  {
    GroupsAreFine(gap, GroupOne(gap), code);
    GroupsAreFine(gap, GroupTwo(gap), code);
    assert Example(gap).groups == [GroupOne(gap), GroupTwo(gap)];
    hide Example, GroupObjects;
  }

  lemma NoTaskObjects(gap: Gap, code: Code)
    ensures !SomeTaskObjects(Example(gap), Both(gap), code)
  {
    TasksAreFine(gap, One(gap), code);
    TasksAreFine(gap, Two(gap), code);
    hide Example, TaskObjects;
  }

  lemma NobodyShort(gap: Gap, code: Code)
    ensures !SomeShort(Example(gap), Both(gap), code)
  {
    hide Example, Short;
    forall use
      ensures !Short(Example(gap), Both(gap), use)
    {
      NobodyIsShort(gap, use);
    }
  }

  lemma NoObjection(gap: Gap, code: Code)
    requires UsablePeriods(Example(gap)) != [] && !SomeGroupObjects(Example(gap), Example(gap).groups, code) && !SomeTaskObjects(Example(gap), Both(gap), code)
    requires !SomeShort(Example(gap), Both(gap), code) && !SomeBlockObjects(Example(gap), Both(gap), Example(gap).blocks, code) && !SomeMerged(Example(gap))
    ensures !Objects(Example(gap), Both(gap), code)
  {
    assert Example(gap).workspace == 1 && Example(gap).year == 1 && Example(gap).term == 1 && !Example(gap).fullCoverage;
    hide Example, UsablePeriods, SomeGroupObjects, SomeTaskObjects, SomeShort, SomeBlockObjects, SomeMerged;
  }

  lemma NothingMerged(gap: Gap)
    ensures !SomeMerged(Example(gap))
  {
    TheSchedule(gap);
    TheShares(gap, 1);
    TheShares(gap, 2);
    assert Example(gap).groups == [GroupOne(gap), GroupTwo(gap)];
    hide Example, Schedule, WellFormed, GroupsNamed, Claimed, SharedPeriods;
  }

  // ----- the round

  const NOBODY: Occupancy := Occupancy({}, {}, {}, {}, multiset{})

  lemma FirstPeriodIsOpen(gap: Gap, t: Spec)
    requires t == One(gap) || t == Two(gap)
    ensures CanPlaceTask(Example(gap), NOBODY, t, [1])
  {
    ThePeriods(gap);
    hide PeriodById, UsablePeriods, AvailableCount, Qualified;
    assert OpenFor(Example(gap), t, 1);
    assert FreeTaskCell(Example(gap), NOBODY, t, 1);
  }

  /** The preflight accepts the problem, and both members of the block pass the test of a round in the first period. */
  lemma RoundPasses(gap: Gap)
    ensures WellFormed(Example(gap)) && GroupsNamed(Example(gap)) && Feasible(Example(gap)) && IsTaskList(Example(gap), Both(gap), [1, 2])
    ensures CanPlaceTask(Example(gap), NOBODY, One(gap), [1]) && CanPlaceTask(Example(gap), NOBODY, Two(gap), [1])
    ensures Exclusive(Example(gap), [])
  {
    hide *;
    PreflightAccepts(gap);
    TheTasks(gap);
    FirstPeriodIsOpen(gap, One(gap));
    FirstPeriodIsOpen(gap, Two(gap));
    NothingIsExclusive(gap);
  }

  lemma NothingIsExclusive(gap: Gap)
    ensures Exclusive(Example(gap), [])
  {
    hide Example;
  }

  /** The round of the block in the first period. */
  ghost function FirstRound(gap: Gap): (r: seq<Placement>)
    ensures |r| == 2
  {
    Round(Example(gap), Both(gap), 1, [1], false)
  }

  /** Members that share their teacher all pass the test of a round, which then gives the teacher two lessons at once. */
  lemma RoundDoubleBooks()
    ensures var problem := Example(SharedTeacher); WellFormed(problem) && GroupsNamed(problem) && Feasible(problem)
    ensures var problem := Example(SharedTeacher);
            && CanPlaceTask(problem, NOBODY, One(SharedTeacher), [1]) && CanPlaceTask(problem, NOBODY, Two(SharedTeacher), [1])
            && Exclusive(problem, []) && !Exclusive(problem, FirstRound(SharedTeacher))
  {
    var lessons := FirstRound(SharedTeacher);
    assert lessons[0].periods == [1] && lessons[1].periods == [1] && lessons[0].teacher == lessons[1].teacher;
    hide *;
    RoundPasses(SharedTeacher);
    if Exclusive(Example(SharedTeacher), lessons) {
      ExclusiveTogether(Example(SharedTeacher), lessons, 0, 1, 1);
      DifferentTeachers(Example(SharedTeacher), lessons[0], lessons[1]);
    }
  }

  lemma DifferentTeachers(problem: Problem, p: Placement, q: Placement)
    requires Together(problem, p, q)
    ensures p.teacher != q.teacher
  {
  }

  /** Members with different people that share a room for one all pass the test of a round, which then overbooks the room. */
  lemma RoundOverbooks()
    ensures var problem := Example(SharedRoom); WellFormed(problem) && GroupsNamed(problem) && Feasible(problem)
    ensures var problem := Example(SharedRoom);
            && CanPlaceTask(problem, NOBODY, One(SharedRoom), [1]) && CanPlaceTask(problem, NOBODY, Two(SharedRoom), [1])
            && Exclusive(problem, []) && AllTogether(problem, FirstRound(SharedRoom)) && !Exclusive(problem, FirstRound(SharedRoom))
  {
    hide *;
    RoundPasses(SharedRoom);
    PeopleDiffer(SharedRoom);
    TwoTakers();
    if Exclusive(Example(SharedRoom), FirstRound(SharedRoom)) {
      SpareRoom(Example(SharedRoom), FirstRound(SharedRoom));
    }
  }

  lemma PeopleDiffer(gap: Gap)
    requires gap.SharedRoom? || gap.Uneven?
    ensures AllTogether(Example(gap), FirstRound(gap))
  {
    var problem, lessons := Example(gap), FirstRound(gap);
    assert problem.learners == map[1 := Learner(1, 1, 1, true), 2 := Learner(2, 1, 2, true)];
    hide Example;
    assert Together(problem, lessons[0], lessons[1]);
  }

  lemma TwoTakers()
    ensures Takers(FirstRound(SharedRoom), 1) == 2 && Capacity(Example(SharedRoom), 1) == 1
    ensures SamePeriods(FirstRound(SharedRoom), [1])
  {
    var lessons := FirstRound(SharedRoom);
    assert lessons[0].resource == 1 && lessons[1].resource == 1;
    hide Example;
    assert lessons[1..] == [lessons[1]];
    assert Takers([lessons[1]], 1) == 1;
  }

  lemma SpareRoom(problem: Problem, lessons: seq<Placement>)
    requires Exclusive(problem, lessons) && SamePeriods(lessons, [1])
    ensures Takers(lessons, 1) <= Capacity(problem, 1)
  {
    hide Exclusive, SamePeriods;
    assert [] + lessons == lessons;
    ExclusiveRoom(problem, [], lessons, [1]);
    hide Capacity, Takers, Bookings;
    assert 1 in [1] && Bookings(ResourceUse, [])[(1, 1)] >= 0;
  }

  // ----- a teacher without the qualification

  /** The first group's lesson in the first round of the block. */
  function FirstLesson(gap: Gap): Placement {
    TaskLesson(Example(gap), One(gap), 1, [1], false)
  }

  /** The preflight accepts the problem although no teacher is qualified for the subject, the task can be placed, and the validator
      then misses the teacher's authority. */
  lemma UnqualifiedLesson()
    ensures var problem := Example(Unqualified); WellFormed(problem) && GroupsNamed(problem) && Feasible(problem)
    ensures var problem := Example(Unqualified); IsTaskList(problem, Both(Unqualified), [1, 2]) && One(Unqualified) in Both(Unqualified)
    ensures var problem := Example(Unqualified);
            && CanPlaceTask(problem, NOBODY, One(Unqualified), [1])
            && Validator.Violates(Validator.AssignmentAuthority, problem, [FirstLesson(Unqualified)])
  {
    assert One(Unqualified) in Both(Unqualified);
    hide *;
    RoundPasses(Unqualified);
    LessonIsUnqualified();
    OneFault(Example(Unqualified), FirstLesson(Unqualified));
  }

  lemma LessonIsUnqualified()
    ensures !Validator.QualifiedTeacher(Example(Unqualified), FirstLesson(Unqualified))
  {
    assert Example(Unqualified).teachers[1].qualified == {2};
    assert FirstLesson(Unqualified).teacher == 1 && FirstLesson(Unqualified).subject == 1;
    hide Example, FirstLesson;
  }

  lemma OneFault(problem: Problem, p: Placement)
    requires !Validator.QualifiedTeacher(problem, p)
    ensures Validator.Violates(Validator.AssignmentAuthority, problem, [p])
  {
    hide Validator.Counted, Validator.QualifiedTeacher, Validator.SomeBadCover, Bookings, Validator.CountedOnly;
    assert Validator.Faulty(Validator.AssignmentAuthority, problem, p);
    assert p in [p];
  }

  // ----- uneven demand

  /** A round for both groups, and then the second period of the second group on its own. */
  ghost function UnevenWeek(): (r: seq<Placement>)
    ensures |r| == 3
  {
    FirstRound(Uneven) + [LastLesson()]
  }

  function LastLesson(): Placement {
    TaskLesson(Example(Uneven), Two(Uneven), 1, [2], false)
  }

  /** The occupancy after the round. */
  ghost function AfterRound(): Occupancy {
    Occupied(Occupied(NOBODY, FirstRound(Uneven)[0]), FirstRound(Uneven)[1])
  }

  /** A block of groups that ask for one and for two periods: the preflight accepts it and a round passes the test. The first group then
      wants nothing more, so there is no second round, and the second group has its other period alone. Everything is placed, nobody is
      in two places at once, and the block is not simultaneous. */
  lemma UnevenBlock()
    ensures var problem := Example(Uneven); WellFormed(problem) && GroupsNamed(problem) && Feasible(problem)
    ensures var problem := Example(Uneven);
            && CanPlaceTask(problem, NOBODY, One(Uneven), [1]) && CanPlaceTask(problem, NOBODY, Two(Uneven), [1])
            && CanPlaceTask(problem, AfterRound(), Two(Uneven), [2])
    ensures forall o, b: Books<TaskKey>, cell, double | Left(b.remaining, GroupKey(1)) == 0 :: !RoundFits(Example(Uneven), o, b, Both(Uneven), cell, double)
    ensures Credit(UnevenWeek(), 1) == FirstCourse().weekly && Credit(UnevenWeek(), 2) == SecondCourse(Uneven).weekly
    ensures Exclusive(Example(Uneven), UnevenWeek()) && Validator.Violates(Validator.BlockSimultaneity, Example(Uneven), UnevenWeek())
  {
    hide *;
    RoundPasses(Uneven);
    NoSecondRound();
    LastLessonFits();
    EverythingIsPlaced();
    UnevenIsExclusive();
    BlockIsBroken();
  }

  lemma NoSecondRound()
    ensures forall o, b: Books<TaskKey>, cell, double | Left(b.remaining, GroupKey(1)) == 0 :: !RoundFits(Example(Uneven), o, b, Both(Uneven), cell, double)
  {
    hide CanPlaceTask, Left, Example;
    forall o, b: Books<TaskKey>, cell, double | Left(b.remaining, GroupKey(1)) == 0
      ensures !RoundFits(Example(Uneven), o, b, Both(Uneven), cell, double)
    {
      assert !MemberFits(Example(Uneven), o, b, Both(Uneven)[0], cell, double);
    }
  }

  lemma LastLessonFits()
    ensures CanPlaceTask(Example(Uneven), AfterRound(), Two(Uneven), [2])
  {
    ThePeriods(Uneven);
    hide PeriodById, UsablePeriods, AvailableCount, Qualified;
    var o, lessons := AfterRound(), FirstRound(Uneven);
    assert lessons[0].periods == [1] && lessons[1].periods == [1];
    assert forall k :: (k, 2) !in o.teachers && (k, 2) !in o.cohorts && (k, 2) !in o.learners && (k, 2) !in o.groups;
    assert OpenFor(Example(Uneven), Two(Uneven), 2);
    hide Example, AfterRound;
    assert FreeTaskCell(Example(Uneven), o, Two(Uneven), 2) by {
      LastCellIsFree(o);
    }
    PeopleAreLocal();
  }

  lemma LastCellIsFree(o: Occupancy)
    requires forall k :: (k, 2) !in o.teachers && (k, 2) !in o.cohorts && (k, 2) !in o.learners && (k, 2) !in o.groups
    requires OpenFor(Example(Uneven), Two(Uneven), 2)
    ensures FreeTaskCell(Example(Uneven), o, Two(Uneven), 2)
  {
    hide Example, OpenFor;
  }

  lemma PeopleAreLocal()
    ensures LocalPeople(Example(Uneven), Two(Uneven))
  {
  }

  lemma WeekAssignments()
    ensures var a, b, c := FirstRound(Uneven)[0], FirstRound(Uneven)[1], LastLesson();
            && AssignmentIds(a) == [1] && AssignmentIds(b) == [2] && AssignmentIds(c) == [2]
            && |a.periods| == 1 && |b.periods| == 1 && |c.periods| == 1
  {
    Single(1);
    Single(2);
    hide UniqueIds, Example;
  }

  lemma CreditOfThree(a: Placement, b: Placement, c: Placement, id: Id)
    requires |a.periods| == 1 && |b.periods| == 1 && |c.periods| == 1
    ensures Credit([a, b] + [c], id) == (if id in AssignmentIds(a) then 1 else 0) + (if id in AssignmentIds(b) then 1 else 0)
                                      + if id in AssignmentIds(c) then 1 else 0
  {
    assert [a, b] == [a] + [b] && [a] == [] + [a] && Credit([], id) == 0;
    hide AssignmentIds, Credit;
    CreditAppend([a, b], c, id);
    CreditAppend([a], b, id);
    CreditAppend([], a, id);
  }

  lemma EverythingIsPlaced()
    ensures Credit(UnevenWeek(), 1) == 1 == FirstCourse().weekly && Credit(UnevenWeek(), 2) == 2 == SecondCourse(Uneven).weekly
  {
    var a, b, c := FirstRound(Uneven)[0], FirstRound(Uneven)[1], LastLesson();
    assert UnevenWeek() == [a, b] + [c];
    WeekAssignments();
    hide Example, FirstRound, LastLesson, UnevenWeek, AssignmentIds, Credit;
    CreditOfThree(a, b, c, 1);
    CreditOfThree(a, b, c, 2);
  }

  lemma UnevenIsExclusive()
    ensures Exclusive(Example(Uneven), UnevenWeek())
  {
    hide *;
    RoundIsFine();
    LastIsFree();
    AddExclusive(Example(Uneven), FirstRound(Uneven), LastLesson());
    WeekIs();
  }

  lemma WeekIs()
    ensures UnevenWeek() == FirstRound(Uneven) + [LastLesson()]
  {
  }

  lemma RoundIsFine()
    ensures Exclusive(Example(Uneven), FirstRound(Uneven))
  {
    hide *;
    NothingIsExclusive(Uneven);
    PeopleDiffer(Uneven);
    NobodyNeedsRoom();
    RoundPeriods(Uneven);
    forall p | p in FirstRound(Uneven)
      ensures FreeFrom(Example(Uneven), [], p)
    {
      FreeAtFirst(Example(Uneven), p);
    }
    OneRound(Example(Uneven), FirstRound(Uneven));
  }

  lemma OneRound(problem: Problem, lessons: seq<Placement>)
    requires Exclusive(problem, []) && SamePeriods(lessons, [1]) && AllTogether(problem, lessons) && Audience.Room(problem, [], lessons, [1])
    requires forall p | p in lessons :: FreeFrom(problem, [], p)
    ensures Exclusive(problem, lessons)
  {
    hide Exclusive, SamePeriods, AllTogether, Audience.Room, FreeFrom;
    assert [] + lessons == lessons;
    RoundIsExclusive(problem, [], lessons, [1]);
  }

  lemma FreeAtFirst(problem: Problem, p: Placement)
    ensures FreeFrom(problem, [], p)
  {
    hide Keys;
  }

  lemma RoundPeriods(gap: Gap)
    ensures SamePeriods(FirstRound(gap), [1])
  {
    hide Example;
  }

  lemma NobodyNeedsRoom()
    ensures Audience.Room(Example(Uneven), [], FirstRound(Uneven), [1])
  {
    var lessons := FirstRound(Uneven);
    assert lessons[0].resource == NO_ID && lessons[1].resource == NO_ID;
    hide Example, FirstRound;
    forall r: Id | r != NO_ID
      ensures Takers(lessons, r) == 0
    {
      assert lessons[1..] == [lessons[1]] && Takers([lessons[1]], r) == 0;
    }
    hide Takers;
  }

  lemma LastIsFree()
    ensures FreeFrom(Example(Uneven), FirstRound(Uneven), LastLesson()) && ResourceLeft(Example(Uneven), FirstRound(Uneven), LastLesson())
    ensures Distinct(LastLesson().periods) && Distinct(LastLesson().learners)
  {
    var lessons := FirstRound(Uneven);
    assert lessons[0].periods == [1] && lessons[1].periods == [1] && LastLesson().periods == [2] && LastLesson().resource == NO_ID;
    hide Example, FirstRound, Keys;
    assert forall kind: Kind, k :: !Booked(kind, lessons, k, 2);
  }

  lemma BlockIsBroken()
    ensures Validator.Violates(Validator.BlockSimultaneity, Example(Uneven), UnevenWeek())
  {
    var problem, ps := Example(Uneven), UnevenWeek();
    var d := Block(1, 1, [1, 2], true);
    assert problem.blocks == [d] && problem.workspace == 1;
    assert ps[0].group == 1 && ps[0].periods == [1] && ps[1].group == 2 && ps[1].periods == [1];
    assert ps[2].group == 2 && ps[2].periods == [2] && ps[2].block == 1;
    hide Example, UnevenWeek;
    assert ps[2] in ps;
    RunsIn(ps, ps[2], 2);
    assert 2 !in Validator.GroupPeriods(ps, 1, 1);
    hide Validator.GroupPeriods;
    NotInStep(problem, ps, d);
  }

  lemma RunsIn(ps: seq<Placement>, p: Placement, per: Id)
    requires p in ps && p.group != NO_ID && per in p.periods
    ensures per in Validator.GroupPeriods(ps, p.block, p.group)
  {
  }

  lemma NotInStep(problem: Problem, ps: seq<Placement>, d: Block)
    requires d in problem.blocks && ActiveBlock(problem, d) && d.groups == [1, 2]
    requires Validator.GroupPeriods(ps, d.id, 1) != Validator.GroupPeriods(ps, d.id, 2)
    ensures Validator.Violates(Validator.BlockSimultaneity, problem, ps)
  {
    hide Validator.GroupPeriods, Validator.SomeFaulty;
    assert 1 in d.groups && 2 in d.groups;
    assert !Validator.InStep(ps, d);
    assert Validator.SomeBlockBroken(problem, ps);
  }

  /** And so it is for every attempt that places everything. */
  lemma UnevenNeverInStep(specs: seq<Spec>, order: seq<Id>, o: Occupancy, b: Books<TaskKey>)
    requires IsTaskList(Example(Uneven), specs, order) && Sound(Example(Uneven), specs, o, b) && Exhausted(b, Block(1, 1, [1, 2], true))
    ensures Validator.Violates(Validator.BlockSimultaneity, Example(Uneven), b.placements)
  {
    var problem, d := Example(Uneven), Block(1, 1, [1, 2], true);
    hide *;
    RoundPasses(Uneven);
    TheBlock(d);
    if Validator.InStep(b.placements, d) {
      Simultaneity.InStepNeedsEvenDemand(problem, specs, order, o, b, d);
    }
    Broken(problem, b.placements, d);
  }

  lemma TheBlock(d: Block)
    requires d == Block(1, 1, [1, 2], true)
    ensures Simultaneity.Separate(Example(Uneven), d) && !Simultaneity.EvenDemand(Example(Uneven), d)
    ensures d in Example(Uneven).blocks && ActiveBlock(Example(Uneven), d)
  {
    var problem := Example(Uneven);
    assert problem.blocks == [d] && problem.groups == [GroupOne(Uneven), GroupTwo(Uneven)] && problem.workspace == 1;
    hide Example;
    assert GroupOne(Uneven) in problem.groups && GroupTwo(Uneven) in problem.groups;
  }

  lemma Broken(problem: Problem, ps: seq<Placement>, d: Block)
    requires d in problem.blocks && ActiveBlock(problem, d) && !Validator.InStep(ps, d)
    ensures Validator.Violates(Validator.BlockSimultaneity, problem, ps)
  {
    hide Validator.InStep, Validator.SomeFaulty;
    assert Validator.SomeBlockBroken(problem, ps);
  }

  // ----- a wrong tag

  /** A lesson tagged with the block for a group that does not belong to it: the validator faults. */
  lemma WrongTag()
    ensures !Validator.TagsMatch(Example(Unqualified), [FirstLesson(Unqualified).(block := 1, group := 3)])
  {
    var problem, p := Example(Unqualified), FirstLesson(Unqualified).(block := 1, group := 3);
    assert problem.blocks == [Block(1, 1, [1, 2], true)] && problem.workspace == 1 && p.periods == [1];
    hide Example, FirstLesson;
    assert p in [p] && problem.blocks[0] in problem.blocks;
    assert Validator.Mistagged(problem.blocks[0], p);
  }
}

/** A whole audience attempt: blocks, then tasks, then the sort. */
module AudienceAttempt {
  import opened Model
  import opened Lessons
  import opened Ledger
  import opened AttemptState
  import opened Tasks
  import opened DoubleDemand
  import opened Audience
  import opened AudienceSolver
  import opened Adjacency
  import opened Engine
  import Attempt
  import AudiencePreflight
  import Validator

  // ----- the order of the tasks

  /** Shared lessons first, then the lessons that cover most assignments, then by name. */
  predicate Precedes(s: Spec, t: Spec) {
    if s.group == NO_ID && t.group != NO_ID then false
    else if s.group != NO_ID && t.group == NO_ID then true
    else if |s.assignments| != |t.assignments| then |s.assignments| > |t.assignments|
    else s.key.id < t.key.id
  }

  function InsertTask(t: Task, s: seq<Task>): (r: seq<Task>)
    ensures multiset(r) == multiset{t} + multiset(s)
  {
    if s == [] || !Precedes(s[0].spec, t.spec) then [t] + s
    else
      assert s == [s[0]] + s[1..];
      [s[0]] + InsertTask(t, s[1..])
  }

  /** No shared lesson comes after one that is not, and among either kind more assignments come first, then smaller identifiers. */
  predicate NotAfter(s: Spec, t: Spec) {
    && (t.group != NO_ID ==> s.group != NO_ID)
    && ((s.group == NO_ID <==> t.group == NO_ID) ==>
          |s.assignments| >= |t.assignments| && (|s.assignments| == |t.assignments| ==> s.key.id <= t.key.id))
  }

  ghost predicate InTaskOrder(s: seq<Task>) {
    forall i, j | 0 <= i < j < |s| :: NotAfter(s[i].spec, s[j].spec)
  }

  lemma {:induction false} InsertTaskOrder(t: Task, s: seq<Task>)
    requires InTaskOrder(s)
    ensures InTaskOrder(InsertTask(t, s))
  {
    if s != [] && Precedes(s[0].spec, t.spec) {
      var rest := InsertTask(t, s[1..]);
      InsertTaskOrder(t, s[1..]);
      forall u | u in rest
        ensures NotAfter(s[0].spec, u.spec)
      {
        assert u in multiset(rest);
        assert u == t || u in s[1..];
      }
      assert forall j | 0 <= j < |rest| :: rest[j] in rest;
    }
  }

  /** The library's sort. */
  function SortTasks(s: seq<Task>): (r: seq<Task>)
    ensures multiset(r) == multiset(s) && InTaskOrder(r)
  {
    if s == [] then []
    else
      assert s == [s[0]] + s[1..];
      InsertTaskOrder(s[0], SortTasks(s[1..]));
      InsertTask(s[0], SortTasks(s[1..]))
  }

  // ----- the task phase

  predicate HasLeft(remaining: map<TaskKey, int>) {
    exists key | key in remaining :: remaining[key] > 0
  }

  /** Nothing that a task wants fits anywhere. */
  ghost predicate AllStuck(problem: Problem, o: Occupancy, b: Books<TaskKey>, tasks: seq<Task>, pairs: seq<seq<Id>>, singles: seq<seq<Id>>) {
    forall t | t in tasks :: Stuck(problem, o, b, t.spec, pairs, singles)
  }

  /** One pass over the tasks. */
  method TaskPass(problem: Problem, state: State<TaskKey>, ghost specs: seq<Spec>, ghost all: set<Task>, tasks: seq<Task>, pairs: seq<seq<Id>>,
                  singles: seq<seq<Id>>, config: Config, ghost mid: Books<TaskKey>)
    returns (stop: bool, progress: bool)
    requires GoodTasks(problem, specs) && Sound(problem, specs, state.occupancy, state.books) && Linked(all, specs, state.books)
    requires (forall k | 0 <= k < |tasks| :: tasks[k] in all) && Cellular(problem, pairs, 2) && Cellular(problem, singles, 1) && Later(mid, state.books)
    requires FullyTagged(problem, all)
    modifies state, all`remaining, all`doubles
    ensures Sound(problem, specs, state.occupancy, state.books) && Linked(all, specs, state.books) && Later(mid, state.books)
    ensures state.timedOut == (old(state.timedOut) || stop)
    ensures progress ==> TotalOwed(specs, state.books.remaining) < TotalOwed(specs, old(state.books.remaining))
    ensures !progress ==> state.books == old(state.books)
    ensures !progress && !stop ==> AllStuck(problem, state.occupancy, state.books, tasks, pairs, singles)
    ensures TotalOwed(specs, state.books.remaining) <= TotalOwed(specs, old(state.books.remaining))
    ensures Used(old(state.iterations), state.iterations, TotalOwed(specs, old(state.books.remaining)) - TotalOwed(specs, state.books.remaining) + 2 * |tasks|, config, stop)
  {
    hide *;
    stop, progress := false, false;
    ghost var b, o, i := state.books, state.occupancy, state.iterations;
    NowUsed(i, i, 0, config, stop);
    for k := 0 to |tasks|
      invariant Sound(problem, specs, state.occupancy, state.books) && Linked(all, specs, state.books) && Later(mid, state.books)
      invariant state.timedOut == old(state.timedOut) && !stop
      invariant progress ==> TotalOwed(specs, state.books.remaining) < TotalOwed(specs, b.remaining)
      invariant !progress ==> state.books == b && state.occupancy == o
      invariant !progress ==> forall j | 0 <= j < k :: Stuck(problem, o, b, tasks[j].spec, pairs, singles)
      invariant TotalOwed(specs, state.books.remaining) <= TotalOwed(specs, b.remaining)
      invariant Used(i, state.iterations, TotalOwed(specs, b.remaining) - TotalOwed(specs, state.books.remaining) + 2 * k, config, stop)
    {
      ghost var middle, j := TotalOwed(specs, state.books.remaining), state.iterations;
      var more;
      TagOf(problem, all, tasks[k]);
      stop, more := RunTask(problem, state, specs, all, tasks[k], pairs, singles, config, mid);
      progress := progress || more;
      ghost var start, end := TotalOwed(specs, b.remaining), TotalOwed(specs, state.books.remaining);
      UsedMore(i, j, state.iterations, start - middle + 2 * k, middle - end + 2, start - end + 2 * (k + 1), config, stop);
      UsedAll(i, state.iterations, start - end + 2 * (k + 1), start - end + 2 * |tasks|, config, stop);
      if stop {
        return;
      }
    }
    if !progress {
      StuckTasks(problem, o, b, tasks, pairs, singles);
    }
  }

  lemma TagOf(problem: Problem, all: set<Task>, t: Task)
    requires FullyTagged(problem, all) && t in all
    ensures TagFits(problem, t.block, t.spec.group)
  {
  }

  lemma StuckTasks(problem: Problem, o: Occupancy, b: Books<TaskKey>, tasks: seq<Task>, pairs: seq<seq<Id>>, singles: seq<seq<Id>>)
    requires forall j | 0 <= j < |tasks| :: Stuck(problem, o, b, tasks[j].spec, pairs, singles)
    ensures AllStuck(problem, o, b, tasks, pairs, singles)
  {
    hide Stuck;
  }

  /** What the passes may spend while the outstanding demand falls: every lesson pays for a pass, and there is a last one. */
  ghost function TasksCost(tasks: nat, before: int, after: int): int {
    (2 * tasks + 1) * (before - after + 1)
  }

  lemma TasksPay(tasks: nat, start: int, middle: int, end: int)
    requires end <= middle <= start
    ensures TasksCost(tasks, start, middle) + (if end < middle then middle - end + 2 * tasks else 0) <= TasksCost(tasks, start, end)
    ensures TasksCost(tasks, start, start) == 2 * tasks + 1
  {
    var n, d := 2 * tasks + 1, middle - end;
    assert n * (start - end + 1) == n * (start - middle + 1) + n * d;
    if d > 0 {
      assert n * d == n * (d - 1) + n && n * (d - 1) >= d - 1;
    }
  }

  /** The `for progress` loop: it ends because the outstanding demand decreases. */
  method RunTasks(problem: Problem, state: State<TaskKey>, ghost specs: seq<Spec>, ghost all: set<Task>, tasks: seq<Task>, pairs: seq<seq<Id>>,
                  singles: seq<seq<Id>>, config: Config, ghost mid: Books<TaskKey>)
    returns (stop: bool)
    requires GoodTasks(problem, specs) && Sound(problem, specs, state.occupancy, state.books) && Linked(all, specs, state.books)
    requires (forall k | 0 <= k < |tasks| :: tasks[k] in all) && Cellular(problem, pairs, 2) && Cellular(problem, singles, 1) && Later(mid, state.books)
    requires FullyTagged(problem, all)
    modifies state, all`remaining, all`doubles
    ensures Sound(problem, specs, state.occupancy, state.books) && Linked(all, specs, state.books) && Later(mid, state.books)
    ensures state.timedOut == (old(state.timedOut) || stop)
    ensures !stop ==> !HasLeft(state.books.remaining) || AllStuck(problem, state.occupancy, state.books, tasks, pairs, singles)
    ensures 0 <= TotalOwed(specs, state.books.remaining) <= TotalOwed(specs, old(state.books.remaining))
    ensures Used(old(state.iterations), state.iterations,
                 TasksCost(|tasks|, TotalOwed(specs, old(state.books.remaining)), TotalOwed(specs, state.books.remaining)), config, stop)
  {
    hide *;
    stop := false;
    ghost var start, i := TotalOwed(specs, state.books.remaining), state.iterations;
    TasksPay(|tasks|, start, start, start);
    NowUsed(i, i, 0, config, stop);
    UsedAll(i, i, 0, TasksCost(|tasks|, start, start) - (2 * |tasks| + 1), config, stop);
    var progress := true;
    SoundTotals(problem, specs, state.occupancy, state.books);
    while progress && HasLeft(state.books.remaining)
      invariant Sound(problem, specs, state.occupancy, state.books) && Linked(all, specs, state.books) && Later(mid, state.books)
      invariant state.timedOut == old(state.timedOut) && !stop && TotalOwed(specs, state.books.remaining) >= 0
      invariant !progress ==> AllStuck(problem, state.occupancy, state.books, tasks, pairs, singles)
      invariant TotalOwed(specs, state.books.remaining) <= start
      invariant Used(i, state.iterations, TasksCost(|tasks|, start, TotalOwed(specs, state.books.remaining)) - if progress then 2 * |tasks| + 1 else 0,
                     config, stop)
      decreases TotalOwed(specs, state.books.remaining), progress
    {
      ghost var middle, j := TotalOwed(specs, state.books.remaining), state.iterations;
      stop, progress := TaskPass(problem, state, specs, all, tasks, pairs, singles, config, mid);
      SoundTotals(problem, specs, state.occupancy, state.books);
      ghost var end, n := TotalOwed(specs, state.books.remaining), |tasks|;
      TasksPay(n, start, middle, end);
      UsedMore(i, j, state.iterations, TasksCost(n, start, middle) - (2 * n + 1), middle - end + 2 * n,
               TasksCost(n, start, end) - (if progress then 2 * n + 1 else 0), config, stop);
      UsedAll(i, state.iterations, TasksCost(n, start, end) - (if progress then 2 * n + 1 else 0), TasksCost(n, start, end), config, stop);
      if stop {
        return;
      }
    }
    UsedAll(i, state.iterations, TasksCost(|tasks|, start, TotalOwed(specs, state.books.remaining)) - (if progress then 2 * |tasks| + 1 else 0),
            TasksCost(|tasks|, start, TotalOwed(specs, state.books.remaining)), config, stop);
  }

  // ----- the sort

  lemma ExclusivePermutation(problem: Problem, ps: seq<Placement>, qs: seq<Placement>)
    requires Exclusive(problem, ps) && multiset(ps) == multiset(qs)
    ensures Exclusive(problem, qs)
  {
    BookingsPermutation(TeacherUse, ps, qs);
    BookingsPermutation(CohortUse, ps, qs);
    BookingsPermutation(LearnerUse, ps, qs);
    BookingsPermutation(GroupUse, ps, qs);
    BookingsPermutation(ResourceUse, ps, qs);
    SameElements(ps, qs);
    hide Bookings, AtMostOnce, Capacity, Keys;
    forall kind: Kind, k: Id, per: Id
      ensures Booked(kind, ps, k, per) <==> Booked(kind, qs, k, per)
    {
    }
    hide Booked;
  }

  lemma OrderlyPermutation(problem: Problem, ps: seq<Placement>, qs: seq<Placement>)
    requires Orderly(problem, ps) && multiset(ps) == multiset(qs)
    ensures Orderly(problem, qs)
  {
    BookingsPermutation(GroupUse, ps, qs);
    hide Exclusive, BlocksCanRun, Bookings, AtMostOnce;
    if BlocksCanRun(problem) {
      ExclusivePermutation(problem, ps, qs);
    }
  }

  lemma LockstepPermutation(ps: seq<Placement>, qs: seq<Placement>, block: Id, groups: seq<Id>)
    requires Lockstep(ps, block, groups) && multiset(qs) == multiset(ps)
    ensures Lockstep(qs, block, groups)
  {
    SameElements(ps, qs);
    forall g, per
      ensures Runs(ps, block, g, per) <==> Runs(qs, block, g, per)
    {
    }
    hide Runs;
  }

  lemma SoundPermutation(problem: Problem, specs: seq<Spec>, o: Occupancy, b: Books<TaskKey>, qs: seq<Placement>)
    requires Sound(problem, specs, o, b) && multiset(qs) == multiset(b.placements)
    ensures Sound(problem, specs, o, b.(placements := qs))
  {
    hide Mirrors, Orderly, LegalTaskLesson, Schedule, Credit, TeacherLoad, TeacherOwed, TeacherTotal, Given, DoublesKept;
    Attempt.MirrorsPermutation(o, b.placements, qs);
    OrderlyPermutation(problem, b.placements, qs);
    GivenPermutation(specs, b, qs);
    DoublesPermutation(specs, b, qs);
    SameElements(b.placements, qs);
    forall id | id in Schedule(problem)
      ensures Credit(qs, id) == Credit(b.placements, id)
    {
      CountsPermutation(b.placements, qs, id);
    }
    forall teacher: Id
      ensures TeacherLoad(qs, teacher) == TeacherLoad(b.placements, teacher)
    {
      TeacherLoadPermutation(b.placements, qs, teacher);
    }
  }

  // ----- the attempt

  method StartTasks(tasks: seq<Task>, specs: seq<Spec>) returns (state: State<TaskKey>)
    requires Untouched(tasks, specs) && DistinctKeys(specs)
    ensures fresh(state) && state.books.placements == [] && Opening(specs, state.books.remaining) && !state.timedOut && state.iterations == 0 && Mirrors(state.occupancy, [])
    ensures forall t | t in specs :: t.key in state.books.doubles && state.books.doubles[t.key] == t.doubles
    ensures Linked((set t | t in tasks), specs, state.books)
  {
    state := new State<TaskKey>();
    ghost var all := set t | t in tasks;
    hide Mirrors, DistinctKeys;
    for k := 0 to |tasks|
      invariant fresh(state) && state.books.placements == [] && !state.timedOut && state.iterations == 0 && Mirrors(state.occupancy, [])
      invariant forall i | 0 <= i < k :: specs[i].key in state.books.remaining && state.books.remaining[specs[i].key] == specs[i].weekly
      invariant forall i | 0 <= i < k :: specs[i].key in state.books.doubles && state.books.doubles[specs[i].key] == specs[i].doubles
    {
      var t := tasks[k];
      assert t.remaining == specs[k].weekly && t.doubles == specs[k].doubles;
      KeysSoFar(specs, k);
      state.books := state.books.(remaining := state.books.remaining[t.spec.key := t.remaining], doubles := state.books.doubles[t.spec.key := t.doubles]);
    }
    OneTaskEach(tasks, specs, all);
  }

  lemma KeysSoFar(specs: seq<Spec>, k: nat)
    requires DistinctKeys(specs) && k < |specs|
    ensures forall i | 0 <= i < k :: specs[i].key != specs[k].key
  {
  }

  lemma OneTaskEach(tasks: seq<Task>, specs: seq<Spec>, all: set<Task>)
    requires |tasks| == |specs| && (forall i | 0 <= i < |tasks| :: tasks[i].spec == specs[i]) && DistinctKeys(specs) && all == set t | t in tasks
    ensures OneEach(all, specs)
  {
    forall t, u | t in all && u in all && t.spec.key == u.spec.key
      ensures t == u
    {
      var i :| 0 <= i < |tasks| && tasks[i] == t;
      var j :| 0 <= j < |tasks| && tasks[j] == u;
      assert specs[i].key == specs[j].key;
    }
  }

  // ----- what the preflight makes sure of

  lemma {:induction false} ClaimedIsShared(problem: Problem, groups: seq<Group>, id: Id)
    requires forall g | g in groups && AudiencePreflight.CountedGroup(problem, g) :: g.weekly > 0
    ensures AudiencePreflight.Claimed(problem, groups, id) == SharedPeriods(problem, groups, id)
  {
    hide UniqueIds;
    if groups != [] {
      var rest, last := groups[..|groups| - 1], groups[|groups| - 1];
      assert groups == rest + [last];
      ClaimedIsShared(problem, rest, id);
      assert last in groups;
    }
  }

  lemma NoObjection(problem: Problem, specs: seq<Spec>, order: seq<Id>, code: AudiencePreflight.Code)
    requires AudiencePreflight.Feasible(problem) && IsTaskList(problem, specs, order)
    ensures UsablePeriods(problem) != []
    ensures code != AudiencePreflight.MissingScope && code != AudiencePreflight.NoUsablePeriods ==>
              && !AudiencePreflight.SomeGroupObjects(problem, problem.groups, code) && !AudiencePreflight.SomeTaskObjects(problem, specs, code)
              && !AudiencePreflight.SomeShort(problem, specs, code) && !AudiencePreflight.SomeBlockObjects(problem, specs, problem.blocks, code)
              && (code == AudiencePreflight.MergedDemand ==> !AudiencePreflight.SomeMerged(problem))
  {
    hide AudiencePreflight.SomeGroupObjects, AudiencePreflight.SomeTaskObjects, AudiencePreflight.SomeShort, AudiencePreflight.SomeBlockObjects,
         AudiencePreflight.SomeMerged, UsablePeriods, IsTaskList;
    assert !AudiencePreflight.Objects(problem, specs, AudiencePreflight.NoUsablePeriods);
    assert !AudiencePreflight.Objects(problem, specs, code);
  }

  lemma GroupsAreFine(problem: Problem, specs: seq<Spec>, order: seq<Id>, g: Group)
    requires AudiencePreflight.Feasible(problem) && IsTaskList(problem, specs, order)
    requires g in problem.groups && AudiencePreflight.CountedGroup(problem, g)
    ensures g.weekly > 0
    ensures forall l | l in UniqueIds(g.learners) :: AudiencePreflight.EligibleMember(problem, g, l)
  {
    hide *;
    NoObjection(problem, specs, order, AudiencePreflight.InvalidGroupDemand);
    NoObjection(problem, specs, order, AudiencePreflight.IneligibleLearner);
    GroupIsFine(problem, g);
  }

  lemma GroupIsFine(problem: Problem, g: Group)
    requires g in problem.groups && AudiencePreflight.CountedGroup(problem, g)
    requires !AudiencePreflight.SomeGroupObjects(problem, problem.groups, AudiencePreflight.InvalidGroupDemand)
    requires !AudiencePreflight.SomeGroupObjects(problem, problem.groups, AudiencePreflight.IneligibleLearner)
    ensures g.weekly > 0
    ensures forall l | l in UniqueIds(g.learners) :: AudiencePreflight.EligibleMember(problem, g, l)
  {
    hide AudiencePreflight.EligibleMember, UniqueIds;
    assert !AudiencePreflight.GroupObjects(problem, g, AudiencePreflight.InvalidGroupDemand);
    assert !AudiencePreflight.GroupObjects(problem, g, AudiencePreflight.IneligibleLearner);
  }

  lemma MergedDemandFits(problem: Problem, specs: seq<Spec>, order: seq<Id>)
    requires AudiencePreflight.Feasible(problem) && IsTaskList(problem, specs, order)
    ensures MergedFits(problem)
  {
    NoObjection(problem, specs, order, AudiencePreflight.MergedDemand);
    hide AudiencePreflight.Feasible, IsTaskList, Schedule;
    forall g | g in problem.groups && AudiencePreflight.CountedGroup(problem, g)
      ensures g.weekly > 0
    {
      GroupsAreFine(problem, specs, order, g);
    }
    forall id | id in Schedule(problem)
      ensures SharedPeriods(problem, problem.groups, id) <= Schedule(problem)[id].weekly
    {
      ClaimedIsShared(problem, problem.groups, id);
    }
  }

  lemma MembersFit(problem: Problem, specs: seq<Spec>, order: seq<Id>, t: Spec)
    requires AudiencePreflight.Feasible(problem) && IsTaskList(problem, specs, order) && Origin(problem, t)
    ensures MembersOfCohorts(problem, t)
  {
    hide AudiencePreflight.Feasible, IsTaskList, Schedule, Rest, RestDoubles;
    if MadeFrom(problem, problem.groups, t) {
      var g :| g in problem.groups && Shares(problem, g) && t == GroupSpec(g);
      GroupsAreFine(problem, specs, order, g);
    }
  }

  lemma DoublesFit(problem: Problem, specs: seq<Spec>, order: seq<Id>, t: Spec)
    requires AudiencePreflight.Feasible(problem) && IsTaskList(problem, specs, order) && t in specs && Origin(problem, t) && t.weekly > 0
    ensures t.doubles >= 0 && t.weekly >= 2 * t.doubles
  {
    NoObjection(problem, specs, order, AudiencePreflight.InvalidDoubles);
    hide AudiencePreflight.Feasible, IsTaskList, Schedule, UniqueIds;
    assert !AudiencePreflight.TaskObjects(problem, t, AudiencePreflight.InvalidDoubles);
  }

  lemma TasksAreGood(problem: Problem, specs: seq<Spec>, order: seq<Id>)
    requires WellFormed(problem) && GroupsNamed(problem) && AudiencePreflight.Feasible(problem) && IsTaskList(problem, specs, order)
    ensures GoodTasks(problem, specs) && MergedFits(problem)
    ensures forall t | t in specs :: Origin(problem, t) && t.doubles >= 0 && t.weekly >= 2 * t.doubles
  {
    hide WellFormed, AudiencePreflight.Feasible, IsTaskList, Origin, Tidy, MembersOfCohorts, MergedFits;
    TaskListFacts(problem, specs, order);
    MergedDemandFits(problem, specs, order);
    forall t | t in specs
      ensures MembersOfCohorts(problem, t) && t.doubles >= 0 && t.weekly >= 2 * t.doubles
    {
      MembersFit(problem, specs, order, t);
      DoublesFit(problem, specs, order, t);
    }
  }

  lemma StartIsSound(problem: Problem, specs: seq<Spec>, order: seq<Id>, o: Occupancy, b: Books<TaskKey>)
    requires WellFormed(problem) && MergedFits(problem) && IsTaskList(problem, specs, order)
    requires b.placements == [] && Opening(specs, b.remaining) && Mirrors(o, [])
    requires forall t | t in specs :: t.key in b.doubles && b.doubles[t.key] == t.doubles && t.doubles >= 0 && t.weekly >= 2 * t.doubles
    ensures Sound(problem, specs, o, b)
  {
    OpeningIsConserved(problem, specs, order, b);
    hide WellFormed, MergedFits, IsTaskList, Mirrors, Conserved;
    assert Exclusive(problem, []);
    StartsWorked(specs, b);
    StartsGiven(specs, b);
    StartsKept(specs, b);
  }

  lemma StartsWorked(specs: seq<Spec>, b: Books<TaskKey>)
    requires b.placements == [] && Opening(specs, b.remaining)
    ensures Worked(specs, b)
  {
    forall teacher: Id
      ensures TeacherLoad(b.placements, teacher) + TeacherOwed(specs, b.remaining, teacher) == TeacherTotal(specs, teacher)
    {
      TeacherOwedAtFirst(specs, b.remaining, teacher);
    }
  }

  lemma TaskByGroup(problem: Problem, specs: seq<Spec>, tasks: seq<Task>, byGroup: map<Id, Task>, g: Id)
    requires GoodTasks(problem, specs) && Indexed(tasks, byGroup) && g in byGroup
    requires |tasks| == |specs| && (forall i | 0 <= i < |tasks| :: tasks[i].spec == specs[i])
    ensures byGroup[g] in tasks && byGroup[g].spec in specs && byGroup[g].spec.key == GroupKey(g)
  {
    hide MembersOfCohorts, DistinctKeys;
    var i :| 0 <= i < |tasks| && tasks[i] == byGroup[g];
    assert specs[i] in specs && Tidy(specs[i]);
  }

  lemma MemberIsIndexed(problem: Problem, specs: seq<Spec>, tasks: seq<Task>, byGroup: map<Id, Task>, d: Block, g: Id)
    requires GoodTasks(problem, specs) && Indexed(tasks, byGroup)
    requires |tasks| == |specs| && (forall i | 0 <= i < |tasks| :: tasks[i].spec == specs[i])
    requires d in problem.blocks && ActiveBlock(problem, d) && g in d.groups
    requires !AudiencePreflight.SomeBlockObjects(problem, specs, problem.blocks, AudiencePreflight.BlockGroupMissing)
    ensures g in byGroup
  {
    hide MembersOfCohorts, DistinctKeys;
    assert !AudiencePreflight.BlockObjects(problem, specs, d, AudiencePreflight.BlockGroupMissing);
    assert AudiencePreflight.HasTask(specs, g);
    var t :| t in specs && t.key == GroupKey(g);
    var i :| 0 <= i < |specs| && specs[i] == t;
    assert Tidy(t) && tasks[i].spec.group in byGroup;
  }

  lemma TasksAreIndexed(problem: Problem, specs: seq<Spec>, order: seq<Id>, tasks: seq<Task>, all: set<Task>, byGroup: map<Id, Task>)
    requires GroupsNamed(problem) && AudiencePreflight.Feasible(problem) && IsTaskList(problem, specs, order)
    requires GoodTasks(problem, specs) && (forall t | t in specs :: Origin(problem, t)) && Indexed(tasks, byGroup)
    requires |tasks| == |specs| && (forall i | 0 <= i < |tasks| :: tasks[i].spec == specs[i]) && all == set t | t in tasks
    ensures WellIndexed(problem, specs, all, byGroup)
  {
    hide AudiencePreflight.Feasible, IsTaskList, Origin, GoodTasks, Indexed, AudiencePreflight.SomeBlockObjects, AudiencePreflight.SomeGroupObjects,
         ActiveBlock;
    NoObjection(problem, specs, order, AudiencePreflight.BlockGroupMissing);
    forall g | g in byGroup
      ensures byGroup[g] in all && byGroup[g].spec in specs && byGroup[g].spec.key == GroupKey(g)
    {
      TaskByGroup(problem, specs, tasks, byGroup, g);
    }
    forall d, g | d in problem.blocks && ActiveBlock(problem, d) && g in d.groups
      ensures g in byGroup
    {
      MemberIsIndexed(problem, specs, tasks, byGroup, d, g);
    }
  }

  // ----- results

  /** Once nothing is left to place, every assignment has exactly its periods. */
  lemma NothingLeftMeetsDemand(problem: Problem, specs: seq<Spec>, o: Occupancy, b: Books<TaskKey>, a: Assignment)
    requires WellFormed(problem) && Sound(problem, specs, o, b) && !HasLeft(b.remaining) && a in problem.assignments && Schedulable(problem, a)
    ensures Credit(b.placements, a.id) == a.weekly
  {
    ScheduleEntries(problem);
    hide WellFormed, Mirrors, Exclusive, LegalTaskLesson, Schedule, Worked, Given, DoublesKept;
    forall t | t in specs
      ensures Left(b.remaining, t.key) == 0
    {
    }
    NothingOwed(specs, b.remaining, a.id);
  }

  lemma {:induction false} NoDoubleOwed(specs: seq<Spec>, doubles: map<TaskKey, int>, id: Id)
    requires forall t | t in specs :: Left(doubles, t.key) == 0
    ensures Owed(specs, doubles, id) == 0
  {
    if specs != [] {
      assert specs == specs[..|specs| - 1] + [specs[|specs| - 1]];
      NoDoubleOwed(specs[..|specs| - 1], doubles, id);
    }
  }

  /** And exactly its double lessons, where they can be shared out. */
  lemma NothingLeftMeetsDoubles(problem: Problem, specs: seq<Spec>, order: seq<Id>, o: Occupancy, b: Books<TaskKey>, a: Assignment)
    requires WellFormed(problem) && IsTaskList(problem, specs, order) && Sound(problem, specs, o, b) && !HasLeft(b.remaining)
    requires a in problem.assignments && Schedulable(problem, a) && DoublesCanBeShared(problem, a)
    ensures DoubleCredit(b.placements, a.id) == a.doubles
  {
    ScheduleEntries(problem);
    hide WellFormed, IsTaskList, Mirrors, Orderly, LegalTaskLesson, Schedule, Conserved, Worked, Given, DoublesKept, DoublesCanBeShared, Owed;
    forall t | t in specs
      ensures Left(b.doubles, t.key) == 0
    {
      assert b.remaining[t.key] <= 0;
    }
    NoDoubleOwed(specs, b.doubles, a.id);
    DoublesConserved(problem, specs, order, b, a.id);
  }

  lemma {:induction false} LockstepIsInStep(ps: seq<Placement>, d: Block)
    requires Lockstep(ps, d.id, d.groups)
    ensures Validator.InStep(ps, d)
  {
    forall g | g in d.groups
      ensures Validator.GroupPeriods(ps, d.id, g) == Validator.GroupPeriods(ps, d.id, d.groups[0])
    {
      forall h, per | h in d.groups
        ensures per in Validator.GroupPeriods(ps, d.id, h) <==> Runs(ps, d.id, h, per)
      {
      }
      hide Runs, Validator.GroupPeriods;
      assert d.groups[0] in d.groups;
    }
  }

  /** No task that wants a single lesson could have it in any usable period. */
  ghost predicate NoRoomMissed(problem: Problem, specs: seq<Spec>, o: Occupancy, b: Books<TaskKey>) {
    forall t: Spec, per: Id | t in specs && WantsLesson(b, t, false) && UsableId(problem, per) :: !CanPlaceTask(problem, o, t, [per])
  }

  /** No task that wants a double lesson could have it in any of the pairs. */
  ghost predicate NoPairMissed(problem: Problem, specs: seq<Spec>, o: Occupancy, b: Books<TaskKey>, pairs: seq<seq<Id>>) {
    forall t: Spec, cell | t in specs && WantsLesson(b, t, true) && cell in pairs :: !CanPlaceTask(problem, o, t, cell)
  }

  lemma StuckMeansNoPair(problem: Problem, specs: seq<Spec>, o: Occupancy, b: Books<TaskKey>, tasks: seq<Task>, sorted: seq<Task>,
                         pairs: seq<seq<Id>>, singles: seq<seq<Id>>)
    requires |tasks| == |specs| && (forall i | 0 <= i < |tasks| :: tasks[i].spec == specs[i]) && multiset(tasks) == multiset(sorted)
    requires !HasLeft(b.remaining) || AllStuck(problem, o, b, sorted, pairs, singles)
    ensures NoPairMissed(problem, specs, o, b, pairs)
  {
    SameElements(tasks, sorted);
    hide CanPlaceTask;
    forall t: Spec, cell | t in specs && WantsLesson(b, t, true) && cell in pairs
      ensures !CanPlaceTask(problem, o, t, cell)
    {
      var i :| 0 <= i < |specs| && specs[i] == t;
      assert tasks[i] in sorted;
      assert HasLeft(b.remaining);
      assert Stuck(problem, o, b, tasks[i].spec, pairs, singles);
    }
  }

  lemma StuckMeansNoRoom(problem: Problem, specs: seq<Spec>, o: Occupancy, b: Books<TaskKey>, tasks: seq<Task>, sorted: seq<Task>,
                         pairs: seq<seq<Id>>, singles: seq<seq<Id>>)
    requires |tasks| == |specs| && (forall i | 0 <= i < |tasks| :: tasks[i].spec == specs[i]) && multiset(tasks) == multiset(sorted)
    requires forall per: Id | UsableId(problem, per) :: [per] in singles
    requires !HasLeft(b.remaining) || AllStuck(problem, o, b, sorted, pairs, singles)
    ensures NoRoomMissed(problem, specs, o, b)
  {
    SameElements(tasks, sorted);
    hide CanPlaceTask, UsableId;
    forall t: Spec, per: Id | t in specs && WantsLesson(b, t, false) && UsableId(problem, per)
      ensures !CanPlaceTask(problem, o, t, [per])
    {
      var i :| 0 <= i < |specs| && specs[i] == t;
      assert tasks[i] in sorted;
      assert HasLeft(b.remaining);
      assert Stuck(problem, o, b, tasks[i].spec, pairs, singles);
    }
  }

  // ----- what the blocks leave

  /** The attempt after its blocks, whether it was cut off there, and the lessons that were added afterwards. */
  datatype Phase = Phase(books: Books<TaskKey>, occupancy: Occupancy, pairs: seq<seq<Id>>, singles: seq<seq<Id>>, cut: bool, late: seq<Placement>)

  /** The cells of an attempt: every usable period, and as many disjoint adjacent pairs as the scan finds. */
  ghost predicate CellsOf(problem: Problem, pairs: seq<seq<Id>>, singles: seq<seq<Id>>) {
    && Cellular(problem, pairs, 2) && |pairs| == |Greedy(UsablePeriods(problem), 0, {})|
    && Cellular(problem, singles, 1) && forall per: Id | UsableId(problem, per) :: [per] in singles
  }

  /** Whenever the blocks are left, every one of them is in lockstep, and all lessons are theirs. Unless they are cut off, every block
      with groups of its own is exhausted or finds no cell for its next round. */
  ghost predicate BlocksLeave(problem: Problem, specs: seq<Spec>, phase: Phase) {
    && Sound(problem, specs, phase.occupancy, phase.books) && CellsOf(problem, phase.pairs, phase.singles)
    && Stepwise(problem, phase.books.placements) && BlocksBefore(phase.books.placements, problem.blocks)
    && (phase.cut ==> phase.late == [])
    && (!phase.cut ==> forall d | d in problem.blocks && Running(problem, d) && OwnGroups(problem, d) ::
                         Settled(problem, specs, phase.occupancy, phase.books, d, phase.pairs, phase.singles))
  }

  /** The lessons are those of the blocks, and later ones for tasks that the blocks left with demand. */
  ghost predicate Continues(phase: Phase, b: Books<TaskKey>) {
    && multiset(b.placements) == multiset(phase.books.placements) + multiset(phase.late)
    && (forall p | p in phase.late && p.group != NO_ID :: Left(phase.books.remaining, GroupKey(p.group)) > 0)
    && forall key :: Left(b.remaining, key) <= Left(phase.books.remaining, key)
  }

  /** The blocks that placed everything their groups ask for. */
  ghost function DoneBlocks(problem: Problem, b: Books<TaskKey>): set<Block> {
    set d | d in problem.blocks && Running(problem, d) && Exhausted(b, d)
  }

  ghost predicate AllInStep(ps: seq<Placement>, done: set<Block>) {
    forall d | d in done :: Validator.InStep(ps, d)
  }

  lemma DoneInStep(problem: Problem, mid: Books<TaskKey>, b: Books<TaskKey>, qs: seq<Placement>)
    requires Stepwise(problem, mid.placements) && Later(mid, b) && multiset(qs) == multiset(b.placements)
    ensures AllInStep(qs, DoneBlocks(problem, mid))
  {
    hide Lockstep, Validator.InStep, Later, Running;
    forall d | d in DoneBlocks(problem, mid)
      ensures Validator.InStep(qs, d)
    {
      StaysLocked(mid, b, d);
      LockstepPermutation(b.placements, qs, d.id, d.groups);
      LockstepIsInStep(qs, d);
    }
  }

  lemma NowLeft(problem: Problem, specs: seq<Spec>, phase: Phase)
    requires Sound(problem, specs, phase.occupancy, phase.books)
    requires Cellular(problem, phase.pairs, 2) && |phase.pairs| == |Greedy(UsablePeriods(problem), 0, {})|
    requires Cellular(problem, phase.singles, 1) && forall per: Id | UsableId(problem, per) :: [per] in phase.singles
    requires Stepwise(problem, phase.books.placements) && BlocksBefore(phase.books.placements, problem.blocks)
    requires !phase.cut ==> forall d | d in problem.blocks && Running(problem, d) && OwnGroups(problem, d) ::
                              Settled(problem, specs, phase.occupancy, phase.books, d, phase.pairs, phase.singles)
    requires phase.cut ==> phase.late == []
    ensures BlocksLeave(problem, specs, phase)
  {
    hide Sound, Stepwise, BlocksBefore, Settled, OwnGroups, Running, Cellular, Greedy, UsablePeriods, UsableId;
  }

  lemma LeftAnyway(problem: Problem, specs: seq<Spec>, phase: Phase, late: seq<Placement>)
    requires BlocksLeave(problem, specs, phase) && (phase.cut ==> late == [])
    ensures BlocksLeave(problem, specs, phase.(late := late))
  {
    hide Sound, Stepwise, BlocksBefore, Settled, OwnGroups, Running, CellsOf;
  }

  lemma LaterIsSuffix(mid: Books<TaskKey>, b: Books<TaskKey>)
    requires Later(mid, b)
    ensures |mid.placements| <= |b.placements|
  {
  }

  lemma NowContinues(mid: Books<TaskKey>, b: Books<TaskKey>, after: Books<TaskKey>, phase: Phase)
    requires Later(mid, b) && after.remaining == b.remaining && multiset(after.placements) == multiset(b.placements)
    requires phase.books == mid && phase.late == b.placements[|mid.placements|..]
    ensures Continues(phase, after)
  {
    assert b.placements == mid.placements + b.placements[|mid.placements|..];
  }

  /** Tasks, state and cells of an attempt. */
  method Prepare(problem: Problem)
    returns (state: State<TaskKey>, tasks: seq<Task>, byGroup: map<Id, Task>, specs: seq<Spec>, ghost order: seq<Id>)
    requires WellFormed(problem) && GroupsNamed(problem) && AudiencePreflight.Feasible(problem)
    ensures fresh(state) && fresh(set t | t in tasks) && IsTaskList(problem, specs, order)
    ensures Sound(problem, specs, state.occupancy, state.books) && Linked((set t | t in tasks), specs, state.books)
    ensures state.iterations == 0 && TotalOwed(specs, state.books.remaining) == AskedPeriods(specs)
    ensures state.books.placements == [] && !state.timedOut && WellIndexed(problem, specs, (set t | t in tasks), byGroup)
    ensures |tasks| == |specs| && forall i | 0 <= i < |tasks| :: tasks[i].spec == specs[i]
    ensures Tagged(problem, set t | t in tasks)
  {
    hide *;
    var assignments := AssignmentById(OnlySchedulable(problem, problem.assignments));
    assert assignments == Schedule(problem) by {
      ScheduleIs(problem);
    }
    tasks, byGroup, specs, order := AudienceTasks(problem, assignments);
    TasksAreGood(problem, specs, order);
    GoodKeys(problem, specs);
    UntouchedSpecs(problem, tasks, specs);
    state := StartTasks(tasks, specs);
    OpeningTotal(specs, state.books.remaining);
    StartIsSound(problem, specs, order, state.occupancy, state.books);
    TasksAreIndexed(problem, specs, order, tasks, (set t | t in tasks), byGroup);
  }

  lemma ScheduleIs(problem: Problem)
    ensures Schedule(problem) == AssignmentById(OnlySchedulable(problem, problem.assignments))
  {
  }

  lemma GoodKeys(problem: Problem, specs: seq<Spec>)
    requires GoodTasks(problem, specs)
    ensures DistinctKeys(specs)
  {
  }

  lemma UntouchedSpecs(problem: Problem, tasks: seq<Task>, specs: seq<Spec>)
    requires Untouched(tasks, specs)
    ensures Tagged(problem, set t | t in tasks)
    ensures |tasks| == |specs| && forall i | 0 <= i < |tasks| :: tasks[i].spec == specs[i]
  {
  }

  /** The periods that the tasks ask for. */
  function AskedPeriods(specs: seq<Spec>): int {
    if specs == [] then 0 else AskedPeriods(specs[..|specs| - 1]) + specs[|specs| - 1].weekly
  }

  /** Iterations that are enough for every attempt, whatever the shuffles. */
  function Allowance(problem: Problem, specs: seq<Spec>): int {
    |problem.blocks| + (2 * |specs| + 1) * (AskedPeriods(specs) + 1)
  }

  lemma {:induction false} OpeningTotal(specs: seq<Spec>, remaining: map<TaskKey, int>)
    requires Opening(specs, remaining)
    ensures TotalOwed(specs, remaining) == AskedPeriods(specs)
  {
    if specs != [] {
      assert specs[|specs| - 1] in specs;
      OpeningTotal(specs[..|specs| - 1], remaining);
    }
  }

  lemma BlocksPay(problem: Problem, specs: seq<Spec>, middle: int)
    requires 0 <= middle <= AskedPeriods(specs)
    ensures AskedPeriods(specs) - middle + |problem.blocks| <= Allowance(problem, specs)
  {
    hide AskedPeriods;
    ProductAtLeast(2 * |specs|, AskedPeriods(specs) + 1);
  }

  lemma ProductAtLeast(n: nat, d: nat)
    ensures (n + 1) * d >= d
  {
    assert (n + 1) * d == n * d + d;
  }

  lemma AllPaid(problem: Problem, specs: seq<Spec>, middle: int, end: int)
    requires 0 <= end <= middle <= AskedPeriods(specs)
    ensures AskedPeriods(specs) - middle + |problem.blocks| + TasksCost(|specs|, middle, end) <= Allowance(problem, specs)
  {
    hide AskedPeriods;
    var n, total := 2 * |specs| + 1, AskedPeriods(specs);
    assert n * (total + 1) == n * (middle - end + 1) + n * (total - middle) + n * end;
    ProductAtLeast(2 * |specs|, total - middle);
    ProductAtLeast(2 * |specs|, end);
  }

  /** The task phase and the sort; `b` is what the tasks leave before their lessons are sorted. */
  method FinishTasks(problem: Problem, state: State<TaskKey>, ghost specs: seq<Spec>, ghost all: set<Task>, tasks: seq<Task>, pairs: seq<seq<Id>>,
                     singles: seq<seq<Id>>, config: Config, ghost mid: Books<TaskKey>)
    returns (stop: bool, ghost b: Books<TaskKey>)
    requires GoodTasks(problem, specs) && Sound(problem, specs, state.occupancy, state.books) && Linked(all, specs, state.books)
    requires |tasks| == |specs| && (forall i | 0 <= i < |tasks| :: tasks[i].spec == specs[i]) && all == (set t | t in tasks)
    requires Cellular(problem, pairs, 2) && Cellular(problem, singles, 1) && FullyTagged(problem, all) && Later(mid, state.books)
    requires |pairs| == |Adjacency.Greedy(UsablePeriods(problem), 0, {})| && forall per: Id | UsableId(problem, per) :: [per] in singles
    modifies state, all`remaining, all`doubles
    ensures Sound(problem, specs, state.occupancy, state.books) && Later(mid, b)
    ensures state.books.remaining == b.remaining && multiset(state.books.placements) == multiset(b.placements)
    ensures state.timedOut == (old(state.timedOut) || stop)
    ensures !stop ==> NoRoomMissed(problem, specs, state.occupancy, state.books) && NoPairMissed(problem, specs, state.occupancy, state.books, pairs)
    ensures 0 <= TotalOwed(specs, b.remaining) <= TotalOwed(specs, old(state.books.remaining))
    ensures Used(old(state.iterations), state.iterations,
                 TasksCost(|specs|, TotalOwed(specs, old(state.books.remaining)), TotalOwed(specs, b.remaining)), config, stop)
  {
    hide *;
    var sorted := SortTasks(tasks);
    SortedTasks(tasks, all);
    stop := RunTasks(problem, state, specs, all, sorted, pairs, singles, config, mid);
    b := state.books;
    if !stop {
      StuckMeansNoRoom(problem, specs, state.occupancy, state.books, tasks, sorted, pairs, singles);
      StuckMeansNoPair(problem, specs, state.occupancy, state.books, tasks, sorted, pairs, singles);
      SortKeeps(problem, specs, state.occupancy, state.books);
      state.books := state.books.(placements := Attempt.SortLessons(state.books.placements));
    }
  }

  /** What an attempt of the tasks leaves: lessons in order, blocks as the block phase leaves them, whatever comes later; and, unless it
      is stopped, no task that a lesson could still be placed for. */
  ghost predicate Follows(problem: Problem, specs: seq<Spec>, phase: Phase, o: Occupancy, b: Books<TaskKey>, timedOut: bool) {
    && Sound(problem, specs, o, b) && BlocksLeave(problem, specs, phase) && Continues(phase, b) && (phase.cut ==> timedOut)
    && AllInStep(b.placements, DoneBlocks(problem, phase.books))
    && (!timedOut ==> NoRoomMissed(problem, specs, o, b) && NoPairMissed(problem, specs, o, b, phase.pairs))
  }

  /** `solveAudienceAttempt`, after a silent preflight. Whatever the shuffles and whenever the attempt stops: if the members of every
      block can run at the same time, nobody and nothing is in two places at once, across both kinds of audience; placed plus owed is
      the demand of every assignment; and every block that exhausts its groups before the single tasks begin runs simultaneously at
      the end. */
  method SolveAudience(problem: Problem, config: Config)
    returns (state: State<TaskKey>, ghost specs: seq<Spec>, ghost order: seq<Id>, ghost phase: Phase)
    requires WellFormed(problem) && GroupsNamed(problem) && AudiencePreflight.Feasible(problem)
    ensures fresh(state) && IsTaskList(problem, specs, order)
    ensures Follows(problem, specs, phase, state.occupancy, state.books, state.timedOut)
    ensures BlocksCanRun(problem) ==> Exclusive(problem, state.books.placements)
    ensures !HasLeft(state.books.remaining) ==>
              forall a | a in problem.assignments && Schedulable(problem, a) :: Credit(state.books.placements, a.id) == a.weekly
    ensures forall a | a in problem.assignments && Schedulable(problem, a) && DoublesCanBeShared(problem, a) ::
              DoubleCredit(state.books.placements, a.id) + Owed(specs, state.books.doubles, a.id) == a.doubles
    ensures !HasLeft(state.books.remaining) ==>
              forall a | a in problem.assignments && Schedulable(problem, a) && DoublesCanBeShared(problem, a) ::
                DoubleCredit(state.books.placements, a.id) == a.doubles
    ensures state.iterations <= Allowance(problem, specs) && (state.timedOut && config.timeless ==> state.iterations >= config.iterationBudget)
  {
    hide *;
    var tasks, byGroup, taskSpecs;
    state, tasks, byGroup, taskSpecs, order := Prepare(problem);
    specs := taskSpecs;
    ghost var all := set t | t in tasks;
    GoodIndex(problem, specs, all, byGroup);
    var periods := ComputeUsablePeriods(problem);
    var pairs := PairCells(problem, periods);
    var singles := SingleCells(problem, periods);
    ghost var opening := state.books.remaining;
    var stop := RunBlocks(problem, state, specs, all, byGroup, pairs, singles, config);
    ghost var mid, o, i, middle := state.books, state.occupancy, state.iterations, TotalOwed(specs, state.books.remaining);
    SoundTotals(problem, specs, o, mid);
    SpentMeans(specs, opening, mid.remaining, i, |problem.blocks|, config, stop);
    BlocksPay(problem, specs, middle);
    ghost var spent := AskedPeriods(specs) - middle + |problem.blocks|;
    UsedAll(0, i, spent, Allowance(problem, specs), config, stop);
    NothingLater(mid);
    ghost var b := state.books;
    phase := Phase(mid, o, pairs, singles, stop, []);
    NowLeft(problem, specs, phase);
    if !stop {
      stop, b := FinishTasks(problem, state, specs, all, tasks, pairs, singles, config, mid);
      ghost var end := TotalOwed(specs, b.remaining);
      AllPaid(problem, specs, middle, end);
      UsedMore(0, i, state.iterations, spent, TasksCost(|specs|, middle, end), Allowance(problem, specs), config, stop);
    }
    UsedMeans(0, state.iterations, Allowance(problem, specs), config, stop);
    LaterIsSuffix(mid, b);
    assert phase.cut ==> b.placements[|mid.placements|..] == [];
    LeftAnyway(problem, specs, phase, b.placements[|mid.placements|..]);
    phase := phase.(late := b.placements[|mid.placements|..]);
    NowContinues(mid, b, state.books, phase);
    DoneInStep(problem, mid, b, state.books.placements);
    NothingLeft(problem, specs, state.occupancy, state.books);
    AllDoubles(problem, specs, order, state.occupancy, state.books);
    SoundIsExclusive(problem, specs, state.occupancy, state.books);
    NowFollows(problem, specs, phase, state.occupancy, state.books, state.timedOut);
  }

  lemma NowFollows(problem: Problem, specs: seq<Spec>, phase: Phase, o: Occupancy, b: Books<TaskKey>, timedOut: bool)
    requires Sound(problem, specs, o, b) && BlocksLeave(problem, specs, phase) && Continues(phase, b) && (phase.cut ==> timedOut)
    requires AllInStep(b.placements, DoneBlocks(problem, phase.books))
    requires !timedOut ==> NoRoomMissed(problem, specs, o, b) && NoPairMissed(problem, specs, o, b, phase.pairs)
    ensures Follows(problem, specs, phase, o, b, timedOut)
  {
    hide Sound, BlocksLeave, Continues, AllInStep, NoRoomMissed, NoPairMissed;
  }

  lemma SoundIsExclusive(problem: Problem, specs: seq<Spec>, o: Occupancy, b: Books<TaskKey>)
    requires Sound(problem, specs, o, b)
    ensures BlocksCanRun(problem) ==> Exclusive(problem, b.placements)
  {
    hide Mirrors, LegalTaskLesson, Accounted, Conserved, Worked, Given, DoublesKept, Exclusive, BlocksCanRun, AtMostOnce;
  }

  lemma AllDoubles(problem: Problem, specs: seq<Spec>, order: seq<Id>, o: Occupancy, b: Books<TaskKey>)
    requires WellFormed(problem) && IsTaskList(problem, specs, order) && Sound(problem, specs, o, b)
    ensures forall a | a in problem.assignments && Schedulable(problem, a) && DoublesCanBeShared(problem, a) ::
              DoubleCredit(b.placements, a.id) + Owed(specs, b.doubles, a.id) == a.doubles
    ensures !HasLeft(b.remaining) ==>
              forall a | a in problem.assignments && Schedulable(problem, a) && DoublesCanBeShared(problem, a) :: DoubleCredit(b.placements, a.id) == a.doubles
  {
    ScheduleEntries(problem);
    assert DoublesKept(specs, b);
    hide WellFormed, IsTaskList, Sound, HasLeft, Schedule, DoublesCanBeShared, DoublesKept, DoubleCredit, Owed;
    forall a | a in problem.assignments && Schedulable(problem, a) && DoublesCanBeShared(problem, a)
      ensures DoubleCredit(b.placements, a.id) + Owed(specs, b.doubles, a.id) == a.doubles
      ensures !HasLeft(b.remaining) ==> DoubleCredit(b.placements, a.id) == a.doubles
    {
      DoublesConserved(problem, specs, order, b, a.id);
      if !HasLeft(b.remaining) {
        NothingLeftMeetsDoubles(problem, specs, order, o, b, a);
      }
    }
  }

  lemma NothingLeft(problem: Problem, specs: seq<Spec>, o: Occupancy, b: Books<TaskKey>)
    requires WellFormed(problem) && Sound(problem, specs, o, b)
    ensures !HasLeft(b.remaining) ==> forall a | a in problem.assignments && Schedulable(problem, a) :: Credit(b.placements, a.id) == a.weekly
  {
    hide WellFormed, Sound, HasLeft;
    if !HasLeft(b.remaining) {
      forall a | a in problem.assignments && Schedulable(problem, a)
        ensures Credit(b.placements, a.id) == a.weekly
      {
        NothingLeftMeetsDemand(problem, specs, o, b, a);
      }
    }
  }

  lemma SortedTasks(tasks: seq<Task>, all: set<Task>)
    requires all == set t | t in tasks
    ensures forall k | 0 <= k < |SortTasks(tasks)| :: SortTasks(tasks)[k] in all
    ensures |SortTasks(tasks)| == |tasks|
  {
    var sorted := SortTasks(tasks);
    assert |sorted| == |multiset(sorted)| == |multiset(tasks)|;
    forall k | 0 <= k < |sorted|
      ensures sorted[k] in all
    {
      assert sorted[k] in multiset(sorted);
    }
  }

  lemma GoodIndex(problem: Problem, specs: seq<Spec>, all: set<Task>, byGroup: map<Id, Task>)
    requires WellIndexed(problem, specs, all, byGroup)
    ensures GoodTasks(problem, specs)
  {
  }

  lemma SortKeeps(problem: Problem, specs: seq<Spec>, o: Occupancy, b: Books<TaskKey>)
    requires Sound(problem, specs, o, b)
    ensures var sorted := b.(placements := Attempt.SortLessons(b.placements));
            && Sound(problem, specs, o, sorted) && multiset(sorted.placements) == multiset(b.placements)
            && (NoRoomMissed(problem, specs, o, b) ==> NoRoomMissed(problem, specs, o, sorted))
            && forall pairs | NoPairMissed(problem, specs, o, b, pairs) :: NoPairMissed(problem, specs, o, sorted, pairs)
  {
    hide Sound, Attempt.SortLessons, CanPlaceTask, UsableId;
    SoundPermutation(problem, specs, o, b, Attempt.SortLessons(b.placements));
  }

  lemma TagIsFine(problem: Problem, t: Spec, p: Placement, d: Block)
    requires GroupsNamed(problem) && IsLessonOf(problem, t, p) && d in problem.blocks && p.block == d.id
    ensures p.group in d.groups
  {
    hide WellShaped, LocalPeople, OpenFor, Running;
    var e :| e in problem.blocks && Running(problem, e) && e.id == p.block && t.group in e.groups;
    SameBlock(problem, d, e);
  }

  /** The tags of the lessons name blocks of their groups, as the validator takes for granted. */
  lemma TagsAreFine(problem: Problem, specs: seq<Spec>, o: Occupancy, b: Books<TaskKey>)
    requires GroupsNamed(problem) && Sound(problem, specs, o, b)
    ensures Validator.TagsMatch(problem, b.placements)
  {
    hide Sound, GroupsNamed, IsLessonOf;
    forall p, d | p in b.placements && d in problem.blocks && p.block == d.id
      ensures p.group in d.groups
    {
      var t := LegalHasTask(problem, specs, o, b, p);
      TagIsFine(problem, t, p, d);
    }
  }
}

/** The tasks of the audience solver (`audienceTasks`): lessons shared by a group, and what the groups leave of each assignment. */
module Tasks {
  import opened Model
  import opened Lessons
  import opened Ledger
  import opened AttemptState

  datatype TaskKey = GroupKey(id: Id) | AssignmentKey(id: Id)

  /** What a task asks for; its progress is in the task's own fields. */
  datatype Spec = Spec(key: TaskKey, group: Id, assignments: seq<Id>, teacher: Id, cohorts: seq<Id>, cohortSubject: Id, subject: Id,
                       resource: Id, learners: seq<Id>, weekly: int, doubles: int)

  class Task {
    const spec: Spec
    var block: Id
    var remaining: int
    var doubles: int

    constructor (spec: Spec)
      ensures this.spec == spec && block == NO_ID && remaining == spec.weekly && doubles == spec.doubles
    {
      this.spec, block, remaining, doubles := spec, NO_ID, spec.weekly, spec.doubles;
    }
  }

  /** A group that gets a task. */
  predicate Shares(problem: Problem, g: Group) {
    g.active && g.workspace == problem.workspace && g.weekly > 0 && UniqueIds(g.assignments) != []
  }

  function GroupSpec(g: Group): Spec {
    Spec(GroupKey(g.id), g.id, UniqueIds(g.assignments), g.teacher, UniqueIds(g.cohorts), NO_ID, g.subject, g.resource, UniqueIds(g.learners),
         g.weekly, g.doubles)
  }

  predicate Covers(problem: Problem, g: Group, id: Id) {
    Shares(problem, g) && id in UniqueIds(g.assignments)
  }

  /** The periods of an assignment that groups take over. */
  function SharedPeriods(problem: Problem, groups: seq<Group>, id: Id): int {
    if groups == [] then 0
    else SharedPeriods(problem, groups[..|groups| - 1], id) + if Covers(problem, groups[|groups| - 1], id) then groups[|groups| - 1].weekly else 0
  }

  function SharedDoubles(problem: Problem, groups: seq<Group>, id: Id): int {
    if groups == [] then 0
    else SharedDoubles(problem, groups[..|groups| - 1], id) + if Covers(problem, groups[|groups| - 1], id) then groups[|groups| - 1].doubles else 0
  }

  function Rest(problem: Problem, a: Assignment): int {
    a.weekly - SharedPeriods(problem, problem.groups, a.id)
  }

  function RestDoubles(problem: Problem, a: Assignment): int {
    var doubles := a.doubles - SharedDoubles(problem, problem.groups, a.id);
    if doubles < 0 then 0 else if doubles * 2 > Rest(problem, a) then Rest(problem, a) / 2 else doubles
  }

  function RestSpec(problem: Problem, a: Assignment): Spec {
    Spec(AssignmentKey(a.id), NO_ID, [a.id], a.teacher, [a.cohort], a.cohortSubject, a.subject, a.resource, [],
         Rest(problem, a), RestDoubles(problem, a))
  }

  function GroupSpecs(problem: Problem, groups: seq<Group>): seq<Spec> {
    if groups == [] then []
    else
      var rest := GroupSpecs(problem, groups[..|groups| - 1]);
      if Shares(problem, groups[|groups| - 1]) then rest + [GroupSpec(groups[|groups| - 1])] else rest
  }

  /** The tasks for what is left of the assignments, taken in the given order. */
  function RestSpecs(problem: Problem, order: seq<Id>): seq<Spec>
    requires forall id | id in order :: id in Schedule(problem)
  {
    if order == [] then []
    else
      var a := Schedule(problem)[order[|order| - 1]];
      var rest := RestSpecs(problem, order[..|order| - 1]);
      if Rest(problem, a) > 0 then rest + [RestSpec(problem, a)] else rest
  }

  /** The tasks of a problem; the order of the assignments is the arbitrary order of a map. */
  ghost predicate IsTaskList(problem: Problem, specs: seq<Spec>, order: seq<Id>) {
    && (forall id :: id in order <==> id in Schedule(problem)) && Distinct(order)
    && specs == GroupSpecs(problem, problem.groups) + RestSpecs(problem, order)
  }

  // ----- demand

  /** What the tasks that cover an assignment still have to place. */
  function Owed(specs: seq<Spec>, remaining: map<TaskKey, int>, id: Id): int {
    if specs == [] then 0
    else
      var t := specs[|specs| - 1];
      Owed(specs[..|specs| - 1], remaining, id) + if id in t.assignments then Left(remaining, t.key) else 0
  }

  /** Placed plus owed is what was asked for: the demand is split between groups and assignments without loss. */
  ghost predicate Conserved(problem: Problem, specs: seq<Spec>, b: Books<TaskKey>) {
    forall id | id in Schedule(problem) :: Credit(b.placements, id) + Owed(specs, b.remaining, id) == Schedule(problem)[id].weekly
  }

  ghost predicate DistinctKeys(specs: seq<Spec>) {
    forall i, j | 0 <= i < j < |specs| :: specs[i].key != specs[j].key
  }

  lemma {:induction false} OwedAppend(a: seq<Spec>, b: seq<Spec>, remaining: map<TaskKey, int>, id: Id)
    ensures Owed(a + b, remaining, id) == Owed(a, remaining, id) + Owed(b, remaining, id)
  {
    if b == [] {
      assert a + b == a;
    } else {
      assert (a + b)[..|a + b| - 1] == a + b[..|b| - 1];
      OwedAppend(a, b[..|b| - 1], remaining, id);
    }
  }

  /** A task's own counter, before anything is placed. */
  ghost predicate Opening(specs: seq<Spec>, remaining: map<TaskKey, int>) {
    forall t | t in specs :: t.key in remaining && remaining[t.key] == t.weekly
  }

  lemma OwedOneMore(specs: seq<Spec>, t: Spec, remaining: map<TaskKey, int>, id: Id)
    requires Opening(specs + [t], remaining)
    ensures Owed(specs + [t], remaining, id) == Owed(specs, remaining, id) + if id in t.assignments then t.weekly else 0
    ensures Opening(specs, remaining)
  {
    assert (specs + [t])[..|specs|] == specs;
    assert forall u :: u in specs + [t] <==> u in specs || u == t;
  }

  lemma {:induction false} OwedByGroups(problem: Problem, groups: seq<Group>, remaining: map<TaskKey, int>, id: Id)
    requires Opening(GroupSpecs(problem, groups), remaining)
    ensures Owed(GroupSpecs(problem, groups), remaining, id) == SharedPeriods(problem, groups, id)
  {
    hide Shares, Opening, Owed;
    if groups != [] {
      var rest, g := groups[..|groups| - 1], groups[|groups| - 1];
      if Shares(problem, g) {
        OwedOneMore(GroupSpecs(problem, rest), GroupSpec(g), remaining, id);
      }
      OwedByGroups(problem, rest, remaining, id);
    } else {
      OwedNothing(remaining, id);
    }
  }

  lemma OwedNothing(remaining: map<TaskKey, int>, id: Id)
    ensures Owed([], remaining, id) == 0
  {
  }

  lemma {:induction false} OwedByRest(problem: Problem, order: seq<Id>, remaining: map<TaskKey, int>, id: Id)
    requires WellFormed(problem) && (forall x | x in order :: x in Schedule(problem)) && Distinct(order)
    requires Opening(RestSpecs(problem, order), remaining)
    ensures Owed(RestSpecs(problem, order), remaining, id)
         == if id in order && Rest(problem, Schedule(problem)[id]) > 0 then Rest(problem, Schedule(problem)[id]) else 0
  {
    hide Schedule, WellFormed, Rest, RestDoubles, Opening, Owed;
    if order != [] {
      var rest: seq<Id> := order[..|order| - 1];
      var last := order[|order| - 1];
      assert order == rest + [last];
      var a := Schedule(problem)[last];
      if Rest(problem, a) > 0 {
        OwedOneMore(RestSpecs(problem, rest), RestSpec(problem, a), remaining, id);
      }
      OwedByRest(problem, rest, remaining, id);
      ScheduleEntries(problem);
      assert last !in rest;
    } else {
      OwedNothing(remaining, id);
    }
  }

  /** Groups never take over more of an assignment than there is. */
  ghost predicate MergedFits(problem: Problem) {
    forall id | id in Schedule(problem) :: SharedPeriods(problem, problem.groups, id) <= Schedule(problem)[id].weekly
  }

  /** The tasks together ask for exactly the demand of every assignment. */
  lemma OpeningIsConserved(problem: Problem, specs: seq<Spec>, order: seq<Id>, b: Books<TaskKey>)
    requires WellFormed(problem) && MergedFits(problem) && IsTaskList(problem, specs, order)
    requires b.placements == [] && Opening(specs, b.remaining)
    ensures Conserved(problem, specs, b)
  {
    ScheduleEntries(problem);
    var shared, rest := GroupSpecs(problem, problem.groups), RestSpecs(problem, order);
    assert Opening(shared, b.remaining) && Opening(rest, b.remaining);
    hide Schedule, WellFormed, GroupSpecs, RestSpecs, Opening;
    forall id | id in Schedule(problem)
      ensures Credit([], id) + Owed(specs, b.remaining, id) == Schedule(problem)[id].weekly
    {
      OwedAppend(shared, rest, b.remaining, id);
      OwedByGroups(problem, problem.groups, b.remaining, id);
      OwedByRest(problem, order, b.remaining, id);
    }
  }

  // ----- a lesson of a task

  /** `placeTask`'s lesson. */
  function TaskLesson(problem: Problem, t: Spec, block: Id, periods: seq<Id>, double: bool): Placement {
    Placement(if t.assignments != [] then t.assignments[0] else NO_ID, t.assignments, t.group, block,
              problem.workspace, problem.year, problem.term, t.teacher, if t.cohorts != [] then t.cohorts[0] else NO_ID, t.cohorts,
              t.cohortSubject, t.subject, t.learners, t.resource, periods, double)
  }

  /** The identifiers of a task are without blanks and repetitions, as `uniqueStrings` leaves them. */
  ghost predicate Tidy(t: Spec) {
    && t.assignments != [] && NO_ID !in t.assignments && Distinct(t.learners) && NO_ID !in t.learners
    && Distinct(t.cohorts) && (t.key.GroupKey? ==> t.group == t.key.id) && (t.key.AssignmentKey? ==> t.group == NO_ID && t.learners == [])
  }

  lemma LastKeyIsNew(specs: seq<Spec>)
    requires DistinctKeys(specs) && specs != []
    ensures DistinctKeys(specs[..|specs| - 1])
    ensures forall u | u in specs[..|specs| - 1] :: u.key != specs[|specs| - 1].key
  {
    forall u | u in specs[..|specs| - 1]
      ensures u.key != specs[|specs| - 1].key
    {
      var i :| 0 <= i < |specs| - 1 && specs[i] == u;
    }
  }

  lemma {:induction false} OwedSpend(specs: seq<Spec>, remaining: map<TaskKey, int>, key: TaskKey, t: Spec, spent: int, id: Id)
    requires DistinctKeys(specs) && t.key == key && forall u | u in specs && u.key == key :: u == t
    ensures Owed(specs, remaining[key := Left(remaining, key) - spent], id)
         == Owed(specs, remaining, id) - if t in specs && id in t.assignments then spent else 0
  {
    if specs != [] {
      var rest, last := specs[..|specs| - 1], specs[|specs| - 1];
      assert specs == rest + [last];
      LastKeyIsNew(specs);
      hide DistinctKeys;
      OwedSpend(rest, remaining, key, t, spent, id);
    }
  }

  lemma SameKey(specs: seq<Spec>, t: Spec)
    requires DistinctKeys(specs) && t in specs
    ensures forall u | u in specs && u.key == t.key :: u == t
  {
    forall u | u in specs && u.key == t.key
      ensures u == t
    {
      var i :| 0 <= i < |specs| && specs[i] == u;
      var j :| 0 <= j < |specs| && specs[j] == t;
    }
  }

  lemma TaskCredit(problem: Problem, ps: seq<Placement>, t: Spec, block: Id, periods: seq<Id>, double: bool, id: Id)
    requires Tidy(t)
    ensures Credit(ps + [TaskLesson(problem, t, block, periods, double)], id) == Credit(ps, id) + if id in t.assignments then |periods| else 0
  {
    hide Credit;
    CreditAppend(ps, TaskLesson(problem, t, block, periods, double), id);
  }

  lemma EntryConserves(problem: Problem, specs: seq<Spec>, b: Books<TaskKey>, t: Spec, block: Id, periods: seq<Id>, double: bool, id: Id)
    requires DistinctKeys(specs) && t in specs && Tidy(t)
    ensures var after := Enter(b, TaskLesson(problem, t, block, periods, double), t.key);
            Credit(after.placements, id) + Owed(specs, after.remaining, id) == Credit(b.placements, id) + Owed(specs, b.remaining, id)
  {
    hide Credit, Tidy, DistinctKeys, Owed;
    SameKey(specs, t);
    TaskCredit(problem, b.placements, t, block, periods, double, id);
    OwedSpend(specs, b.remaining, t.key, t, |periods|, id);
  }

  /** Placing a lesson moves its periods from what is owed to what is credited, for every assignment it covers. */
  lemma LessonConserves(problem: Problem, specs: seq<Spec>, b: Books<TaskKey>, t: Spec, block: Id, periods: seq<Id>, double: bool)
    requires DistinctKeys(specs) && t in specs && Tidy(t) && Conserved(problem, specs, b)
    ensures Conserved(problem, specs, Enter(b, TaskLesson(problem, t, block, periods, double), t.key))
  {
    hide Schedule, Credit, Tidy, DistinctKeys, Owed, Enter;
    forall id | id in Schedule(problem)
      ensures var after := Enter(b, TaskLesson(problem, t, block, periods, double), t.key);
              Credit(after.placements, id) + Owed(specs, after.remaining, id) == Credit(b.placements, id) + Owed(specs, b.remaining, id)
    {
      EntryConserves(problem, specs, b, t, block, periods, double, id);
    }
  }

  /** When nothing is owed, every demand is met. */
  lemma {:induction false} NothingOwed(specs: seq<Spec>, remaining: map<TaskKey, int>, id: Id)
    requires forall t | t in specs :: Left(remaining, t.key) == 0
    ensures Owed(specs, remaining, id) == 0
  {
    if specs != [] {
      assert specs == specs[..|specs| - 1] + [specs[|specs| - 1]];
      NothingOwed(specs[..|specs| - 1], remaining, id);
    }
  }

  // ----- building the tasks

  /** What is left of the assignments after the first groups. */
  ghost predicate LeftOver(problem: Problem, groups: seq<Group>, remaining: map<Id, int>, doubles: map<Id, int>) {
    forall id | id in Schedule(problem) ::
      && Left(remaining, id) == Schedule(problem)[id].weekly - SharedPeriods(problem, groups, id)
      && Left(doubles, id) == Schedule(problem)[id].doubles - SharedDoubles(problem, groups, id)
  }

  /** Subtracts `amount` for every listed identifier. */
  method TakeFrom(m: map<Id, int>, ids: seq<Id>, amount: int) returns (r: map<Id, int>)
    requires Distinct(ids)
    ensures forall id: Id :: Left(r, id) == Left(m, id) - if id in ids then amount else 0
  {
    r := m;
    for k := 0 to |ids|
      invariant forall id: Id :: Left(r, id) == Left(m, id) - if id in ids[..k] then amount else 0
    {
      r := r[ids[k] := Left(r, ids[k]) - amount];
    }
  }

  lemma LeftOverStep(problem: Problem, groups: seq<Group>, g: Group, remaining: map<Id, int>, doubles: map<Id, int>, r: map<Id, int>, d: map<Id, int>)
    requires LeftOver(problem, groups, remaining, doubles)
    requires forall id: Id :: Left(r, id) == Left(remaining, id) - if Covers(problem, g, id) then g.weekly else 0
    requires forall id: Id :: Left(d, id) == Left(doubles, id) - if Covers(problem, g, id) then g.doubles else 0
    ensures LeftOver(problem, groups + [g], r, d)
  {
    assert (groups + [g])[..|groups|] == groups;
    hide Schedule, Covers, Left;
  }

  method ShareOut(problem: Problem, start: map<Id, int>, startDoubles: map<Id, int>)
    returns (specs: seq<Spec>, remaining: map<Id, int>, doubles: map<Id, int>)
    requires LeftOver(problem, [], start, startDoubles)
    ensures specs == GroupSpecs(problem, problem.groups) && LeftOver(problem, problem.groups, remaining, doubles)
  {
    specs, remaining, doubles := [], start, startDoubles;
    var groups := problem.groups;
    assert groups[..0] == [];
    hide LeftOver, Schedule, Left;
    for k := 0 to |groups|
      invariant specs == GroupSpecs(problem, groups[..k]) && LeftOver(problem, groups[..k], remaining, doubles)
    {
      var g := groups[k];
      assert groups[..k + 1] == groups[..k] + [g] && groups[..k + 1][..k] == groups[..k];
      ghost var r, d := remaining, doubles;
      if Shares(problem, g) {
        remaining := TakeFrom(remaining, UniqueIds(g.assignments), g.weekly);
        doubles := TakeFrom(doubles, UniqueIds(g.assignments), g.doubles);
        specs := specs + [GroupSpec(g)];
      }
      LeftOverStep(problem, groups[..k], g, r, d, remaining, doubles);
    }
    assert groups[..|groups|] == groups;
  }

  method Residue(problem: Problem, assignments: map<Id, Assignment>, order: seq<Id>, remaining: map<Id, int>, doubles: map<Id, int>)
    returns (specs: seq<Spec>)
    requires WellFormed(problem) && assignments == Schedule(problem) && forall id :: id in order <==> id in assignments
    requires LeftOver(problem, problem.groups, remaining, doubles)
    ensures specs == RestSpecs(problem, order)
  {
    hide Schedule, WellFormed;
    ScheduleEntries(problem);
    specs := [];
    for k := 0 to |order|
      invariant specs == RestSpecs(problem, order[..k])
    {
      assert order[..k + 1][..k] == order[..k];
      var a := assignments[order[k]];
      var left := Left(remaining, a.id);
      if left > 0 {
        var doubleLeft := if Left(doubles, a.id) < 0 then 0 else Left(doubles, a.id);
        if doubleLeft * 2 > left {
          doubleLeft := left / 2;
        }
        specs := specs + [Spec(AssignmentKey(a.id), NO_ID, [a.id], a.teacher, [a.cohort], a.cohortSubject, a.subject, a.resource, [],
                               left, doubleLeft)];
      }
    }
    assert order[..|order|] == order;
  }

  /** The tasks stand for `specs`, and nothing has been placed. */
  ghost predicate Untouched(tasks: seq<Task>, specs: seq<Spec>)
    reads set t | t in tasks
  {
    && |tasks| == |specs| && (forall i | 0 <= i < |tasks| :: tasks[i].spec == specs[i])
    && forall t | t in tasks :: t.block == NO_ID && t.remaining == t.spec.weekly && t.doubles == t.spec.doubles
  }

  method MakeTasks(specs: seq<Spec>) returns (tasks: seq<Task>)
    ensures Untouched(tasks, specs) && fresh(set t | t in tasks)
  {
    tasks := [];
    for k := 0 to |specs|
      invariant Untouched(tasks, specs[..k]) && fresh(set t | t in tasks)
    {
      var t := new Task(specs[k]);
      tasks := tasks + [t];
    }
  }

  /** The task of each group. */
  ghost predicate Indexed(tasks: seq<Task>, byGroup: map<Id, Task>) {
    && (forall g | g in byGroup :: byGroup[g] in tasks && byGroup[g].spec.key.GroupKey? && byGroup[g].spec.group == g)
    && forall t | t in tasks && t.spec.key.GroupKey? :: t.spec.group in byGroup
  }

  method IndexGroups(tasks: seq<Task>) returns (byGroup: map<Id, Task>)
    ensures Indexed(tasks, byGroup)
  {
    byGroup := map[];
    for k := 0 to |tasks|
      invariant Indexed(tasks[..k], byGroup)
    {
      assert tasks[..k + 1] == tasks[..k] + [tasks[k]];
      if tasks[k].spec.key.GroupKey? {
        byGroup := byGroup[tasks[k].spec.group := tasks[k]];
      }
    }
    assert tasks[..|tasks|] == tasks;
  }

  method ComputeSpecs(problem: Problem, assignments: map<Id, Assignment>) returns (specs: seq<Spec>, ghost order: seq<Id>)
    requires WellFormed(problem) && assignments == Schedule(problem)
    ensures IsTaskList(problem, specs, order)
  {
    StartLeftOver(problem);
    hide WellFormed, Schedule, LeftOver, GroupSpecs, RestSpecs;
    var keys := KeysInSomeOrder(assignments);
    order := keys;
    var shared, remaining, doubles := ShareOut(problem, map id | id in assignments :: assignments[id].weekly,
                                               map id | id in assignments :: assignments[id].doubles);
    var rest := Residue(problem, assignments, keys, remaining, doubles);
    specs := shared + rest;
  }

  method AudienceTasks(problem: Problem, assignments: map<Id, Assignment>)
    returns (tasks: seq<Task>, byGroup: map<Id, Task>, specs: seq<Spec>, ghost order: seq<Id>)
    requires WellFormed(problem) && assignments == Schedule(problem)
    ensures IsTaskList(problem, specs, order) && Untouched(tasks, specs) && fresh(set t | t in tasks) && Indexed(tasks, byGroup)
  {
    hide *;
    specs, order := ComputeSpecs(problem, assignments);
    tasks := MakeTasks(specs);
    byGroup := IndexGroups(tasks);
  }

  lemma StartLeftOver(problem: Problem)
    requires WellFormed(problem)
    ensures var assignments := Schedule(problem);
            LeftOver(problem, [], map id | id in assignments :: assignments[id].weekly, map id | id in assignments :: assignments[id].doubles)
  {
    hide Schedule;
  }

  /** Groups have names of their own, and so have blocks. */
  ghost predicate GroupsNamed(problem: Problem) {
    && (forall g | g in problem.groups :: g.id != NO_ID)
    && (forall i, j | 0 <= i < j < |problem.groups| :: problem.groups[i].id != problem.groups[j].id)
    && (forall b | b in problem.blocks :: b.id != NO_ID && Distinct(b.groups))
    && (forall i, j | 0 <= i < j < |problem.blocks| :: problem.blocks[i].id != problem.blocks[j].id)
  }

  ghost predicate MadeFrom(problem: Problem, groups: seq<Group>, t: Spec) {
    exists g | g in groups :: Shares(problem, g) && t == GroupSpec(g)
  }

  lemma MadeFromMore(problem: Problem, groups: seq<Group>, last: Group, t: Spec)
    ensures MadeFrom(problem, groups, t) ==> MadeFrom(problem, groups + [last], t)
    ensures Shares(problem, last) ==> MadeFrom(problem, groups + [last], GroupSpec(last))
  {
    hide Shares, GroupSpec;
    assert forall g :: g in groups + [last] <==> g in groups || g == last;
  }

  lemma MadeFromOthers(problem: Problem, groups: seq<Group>, last: Group, t: Spec)
    requires MadeFrom(problem, groups, t) && forall g | g in groups :: g.id != last.id
    ensures t.key != GroupKey(last.id)
  {
  }

  lemma OtherNames(groups: seq<Group>)
    requires groups != [] && forall i, j | 0 <= i < j < |groups| :: groups[i].id != groups[j].id
    ensures forall g | g in groups[..|groups| - 1] :: g.id != groups[|groups| - 1].id
  {
    forall g | g in groups[..|groups| - 1]
      ensures g.id != groups[|groups| - 1].id
    {
      var i :| 0 <= i < |groups| - 1 && groups[i] == g;
    }
  }

  lemma {:induction false} GroupSpecsFacts(problem: Problem, groups: seq<Group>)
    requires forall i, j | 0 <= i < j < |groups| :: groups[i].id != groups[j].id
    ensures DistinctKeys(GroupSpecs(problem, groups))
    ensures forall t | t in GroupSpecs(problem, groups) :: MadeFrom(problem, groups, t)
    ensures forall g | g in groups && Shares(problem, g) :: GroupSpec(g) in GroupSpecs(problem, groups)
  {
    hide Shares, MadeFrom, DistinctKeys, GroupSpec;
    if groups == [] {
      NoKeys();
    } else {
      var rest, last := groups[..|groups| - 1], groups[|groups| - 1];
      assert groups == rest + [last];
      OtherNames(groups);
      GroupSpecsFacts(problem, rest);
      var some := GroupSpecs(problem, rest);
      forall t | t in some
        ensures t.key != GroupKey(last.id) && MadeFrom(problem, groups, t)
      {
        MadeFromOthers(problem, rest, last, t);
        MadeFromMore(problem, rest, last, t);
      }
      MadeFromMore(problem, rest, last, GroupSpec(last));
      KeysMore(some, GroupSpec(last), last);
    }
  }

  lemma NoKeys()
    ensures DistinctKeys([])
  {
  }

  lemma KeysMore(some: seq<Spec>, t: Spec, g: Group)
    requires DistinctKeys(some) && t == GroupSpec(g) && forall u | u in some :: u.key != GroupKey(g.id)
    ensures DistinctKeys(some + [t])
  {
    assert t.key == GroupKey(g.id);
    hide GroupSpec;
    assert forall i | 0 <= i < |some| :: some[i] in some;
  }

  lemma {:induction false} RestSpecsFacts(problem: Problem, order: seq<Id>)
    requires WellFormed(problem) && (forall id | id in order :: id in Schedule(problem)) && Distinct(order)
    ensures DistinctKeys(RestSpecs(problem, order))
    ensures forall t | t in RestSpecs(problem, order) ::
              exists id | id in order :: Rest(problem, Schedule(problem)[id]) > 0 && t == RestSpec(problem, Schedule(problem)[id])
    ensures forall id | id in order && Rest(problem, Schedule(problem)[id]) > 0 :: RestSpec(problem, Schedule(problem)[id]) in RestSpecs(problem, order)
  {
    ScheduleEntries(problem);
    hide Schedule, WellFormed, Rest, RestDoubles;
    if order != [] {
      var rest: seq<Id> := order[..|order| - 1];
      var last := order[|order| - 1];
      assert order == rest + [last];
      RestSpecsFacts(problem, rest);
      var some := RestSpecs(problem, rest);
      forall i | 0 <= i < |some|
        ensures some[i].key != AssignmentKey(last)
      {
        assert some[i] in some;
      }
    }
  }

  /** Where a task comes from. */
  ghost predicate Origin(problem: Problem, t: Spec) {
    || MadeFrom(problem, problem.groups, t)
    || (exists id | id in Schedule(problem) :: Rest(problem, Schedule(problem)[id]) > 0 && t == RestSpec(problem, Schedule(problem)[id]))
  }

  lemma GroupIsTidy(problem: Problem, g: Group)
    requires Shares(problem, g)
    ensures Tidy(GroupSpec(g)) && GroupSpec(g).weekly > 0
  {
    hide UniqueIds;
  }

  lemma RestIsTidy(problem: Problem, id: Id)
    requires WellFormed(problem) && id in Schedule(problem) && Rest(problem, Schedule(problem)[id]) > 0
    ensures Tidy(RestSpec(problem, Schedule(problem)[id])) && RestSpec(problem, Schedule(problem)[id]).weekly > 0
  {
    ScheduleEntries(problem);
    hide Schedule, WellFormed, Rest, RestDoubles;
  }

  lemma TaskListFacts(problem: Problem, specs: seq<Spec>, order: seq<Id>)
    requires WellFormed(problem) && GroupsNamed(problem) && IsTaskList(problem, specs, order)
    ensures DistinctKeys(specs)
    ensures forall t | t in specs :: Tidy(t) && t.weekly > 0 && Origin(problem, t)
    ensures forall g | g in problem.groups && Shares(problem, g) :: GroupSpec(g) in specs
  {
    hide Schedule, WellFormed, Rest, RestDoubles, Shares, Tidy, RestSpecs, GroupSpecs;
    GroupSpecsFacts(problem, problem.groups);
    RestSpecsFacts(problem, order);
    var some, more := GroupSpecs(problem, problem.groups), RestSpecs(problem, order);
    forall i, j | 0 <= i < |some| && 0 <= j < |more|
      ensures some[i].key != more[j].key
    {
      assert some[i] in some && more[j] in more;
    }
    forall t | t in specs
      ensures Tidy(t) && t.weekly > 0 && Origin(problem, t)
    {
      if t in some {
        var g :| g in problem.groups && Shares(problem, g) && t == GroupSpec(g);
        GroupIsTidy(problem, g);
      } else {
        var id :| id in order && Rest(problem, Schedule(problem)[id]) > 0 && t == RestSpec(problem, Schedule(problem)[id]);
        RestIsTidy(problem, id);
      }
    }
  }

  // ----- what teachers are asked for

  /** What the tasks of a teacher still have to place. */
  function TeacherOwed(specs: seq<Spec>, remaining: map<TaskKey, int>, teacher: Id): int {
    if specs == [] then 0
    else
      var t := specs[|specs| - 1];
      TeacherOwed(specs[..|specs| - 1], remaining, teacher) + if t.teacher == teacher then Left(remaining, t.key) else 0
  }

  /** What the tasks of a teacher ask for. */
  function TeacherTotal(specs: seq<Spec>, teacher: Id): int {
    if specs == [] then 0
    else
      var t := specs[|specs| - 1];
      TeacherTotal(specs[..|specs| - 1], teacher) + if t.teacher == teacher then t.weekly else 0
  }

  /** Placed plus owed is what was asked for, for every teacher. */
  ghost predicate Worked(specs: seq<Spec>, b: Books<TaskKey>) {
    forall teacher: Id :: TeacherLoad(b.placements, teacher) + TeacherOwed(specs, b.remaining, teacher) == TeacherTotal(specs, teacher)
  }

  lemma {:induction false} TeacherOwedAtFirst(specs: seq<Spec>, remaining: map<TaskKey, int>, teacher: Id)
    requires Opening(specs, remaining)
    ensures TeacherOwed(specs, remaining, teacher) == TeacherTotal(specs, teacher)
  {
    if specs != [] {
      assert specs == specs[..|specs| - 1] + [specs[|specs| - 1]];
      TeacherOwedAtFirst(specs[..|specs| - 1], remaining, teacher);
    }
  }

  lemma {:induction false} TeacherOwedSpend(specs: seq<Spec>, remaining: map<TaskKey, int>, t: Spec, spent: int, teacher: Id)
    requires DistinctKeys(specs) && forall u | u in specs && u.key == t.key :: u == t
    ensures TeacherOwed(specs, remaining[t.key := Left(remaining, t.key) - spent], teacher)
         == TeacherOwed(specs, remaining, teacher) - if t in specs && t.teacher == teacher then spent else 0
  {
    if specs != [] {
      var rest, last := specs[..|specs| - 1], specs[|specs| - 1];
      assert specs == rest + [last];
      LastKeyIsNew(specs);
      hide DistinctKeys;
      TeacherOwedSpend(rest, remaining, t, spent, teacher);
    }
  }

  lemma EntryWorks(problem: Problem, specs: seq<Spec>, b: Books<TaskKey>, t: Spec, block: Id, periods: seq<Id>, double: bool, teacher: Id)
    requires DistinctKeys(specs) && t in specs
    ensures var after := Enter(b, TaskLesson(problem, t, block, periods, double), t.key);
            TeacherLoad(after.placements, teacher) + TeacherOwed(specs, after.remaining, teacher)
            == TeacherLoad(b.placements, teacher) + TeacherOwed(specs, b.remaining, teacher)
  {
    hide DistinctKeys, TeacherOwed, TeacherLoad;
    SameKey(specs, t);
    TeacherLoadAppend(b.placements, TaskLesson(problem, t, block, periods, double), teacher);
    TeacherOwedSpend(specs, b.remaining, t, |periods|, teacher);
  }

  lemma LessonWorks(problem: Problem, specs: seq<Spec>, b: Books<TaskKey>, t: Spec, block: Id, periods: seq<Id>, double: bool)
    requires DistinctKeys(specs) && t in specs && Worked(specs, b)
    ensures Worked(specs, Enter(b, TaskLesson(problem, t, block, periods, double), t.key))
  {
    hide DistinctKeys, TeacherOwed, TeacherLoad, TeacherTotal, Enter;
    forall teacher: Id
      ensures var after := Enter(b, TaskLesson(problem, t, block, periods, double), t.key);
              TeacherLoad(after.placements, teacher) + TeacherOwed(specs, after.remaining, teacher)
              == TeacherLoad(b.placements, teacher) + TeacherOwed(specs, b.remaining, teacher)
    {
      EntryWorks(problem, specs, b, t, block, periods, double, teacher);
    }
  }

  lemma {:induction false} TeacherLoadRemove(ps: seq<Placement>, i: nat, teacher: Id)
    requires i < |ps|
    ensures TeacherLoad(ps, teacher) == TeacherLoad(ps[..i] + ps[i + 1..], teacher) + if ps[i].teacher == teacher then |ps[i].periods| else 0
  {
    var shorter, last := ps[..|ps| - 1], ps[|ps| - 1];
    assert ps == shorter + [last];
    if i == |shorter| {
      assert ps[..i] + ps[i + 1..] == shorter;
    } else {
      TeacherLoadRemove(shorter, i, teacher);
      assert ps[..i] + ps[i + 1..] == (shorter[..i] + shorter[i + 1..]) + [last];
      TeacherLoadAppend(shorter[..i] + shorter[i + 1..], last, teacher);
    }
  }

  lemma {:induction false} TeacherLoadPermutation(s: seq<Placement>, t: seq<Placement>, teacher: Id)
    requires multiset(s) == multiset(t)
    ensures TeacherLoad(s, teacher) == TeacherLoad(t, teacher)
  {
    if s == [] {
      assert t == [];
    } else {
      var i := PickLast(s, t);
      TeacherLoadPermutation(s[..|s| - 1], t[..i] + t[i + 1..], teacher);
      TeacherLoadRemove(t, i, teacher);
    }
  }

  // ----- what groups are given

  /** The periods in which the group has lessons. */
  ghost function Times(ps: seq<Placement>, group: Id): set<Id> {
    set p, per | p in ps && p.group == group && per in p.periods :: per
  }

  /** A group has had as many periods as its task has spent. */
  ghost predicate Given(specs: seq<Spec>, b: Books<TaskKey>) {
    forall t | t in specs && t.group != NO_ID :: |Times(b.placements, t.group)| + Left(b.remaining, t.key) == t.weekly
  }

  lemma TimesBooked(ps: seq<Placement>, group: Id)
    requires group != NO_ID
    ensures forall per :: per in Times(ps, group) <==> Booked(GroupUse, ps, group, per)
  {
    assert forall p :: group in Keys(GroupUse, p) <==> p.group == group;
    hide Keys;
  }

  lemma TimesAppend(ps: seq<Placement>, p: Placement, group: Id)
    requires p.group == group != NO_ID && Distinct(p.periods) && forall per | per in p.periods :: !Booked(GroupUse, ps, group, per)
    ensures |Times(ps + [p], group)| == |Times(ps, group)| + |p.periods|
  {
    var before, added := Times(ps, group), set per | per in p.periods;
    TimesBooked(ps, group);
    assert forall q :: q in ps + [p] <==> q in ps || q == p;
    assert Times(ps + [p], group) == before + added;
    DistinctSetSize(p.periods, added);
  }

  lemma TimesOfOthers(ps: seq<Placement>, p: Placement, group: Id)
    requires p.group != group
    ensures Times(ps + [p], group) == Times(ps, group)
  {
    assert forall q :: q in ps + [p] <==> q in ps || q == p;
  }

  lemma LessonGives(problem: Problem, specs: seq<Spec>, b: Books<TaskKey>, t: Spec, p: Placement)
    requires DistinctKeys(specs) && t in specs && Given(specs, b) && p.group == t.group && Distinct(p.periods)
    requires forall u | u in specs :: Tidy(u)
    requires t.group != NO_ID ==> forall per | per in p.periods :: !Booked(GroupUse, b.placements, t.group, per)
    ensures Given(specs, Enter(b, p, t.key))
  {
    var after := Enter(b, p, t.key);
    SameKey(specs, t);
    hide Times, Booked, DistinctKeys;
    forall u | u in specs && u.group != NO_ID
      ensures |Times(after.placements, u.group)| + Left(after.remaining, u.key) == u.weekly
    {
      assert Tidy(u) && Tidy(t);
      if u.key == t.key {
        TimesAppend(b.placements, p, t.group);
      } else {
        TimesOfOthers(b.placements, p, u.group);
      }
    }
  }

  lemma GivenPermutation(specs: seq<Spec>, b: Books<TaskKey>, qs: seq<Placement>)
    requires Given(specs, b) && multiset(qs) == multiset(b.placements)
    ensures Given(specs, b.(placements := qs))
  {
    SameElements(b.placements, qs);
    forall group
      ensures Times(qs, group) == Times(b.placements, group)
    {
    }
    hide Times;
  }

  lemma StartsGiven(specs: seq<Spec>, b: Books<TaskKey>)
    requires b.placements == [] && Opening(specs, b.remaining)
    ensures Given(specs, b)
  {
    forall group
      ensures Times(b.placements, group) == {}
    {
    }
    hide Times;
  }
}

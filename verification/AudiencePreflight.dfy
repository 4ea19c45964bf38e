/** `analyzeAudienceFeasibility`: what is checked before a timetable with groups, learners or blocks is attempted. */
module AudiencePreflight {
  import opened Model
  import opened Lessons
  import opened Ledger
  import opened AttemptState
  import opened Tasks

  datatype Code = MissingScope | NoUsablePeriods | InvalidGroupDemand | InvalidDoubles | MissingTeacher | IneligibleLearner
                | MissingAssignment | TeacherMismatch | CohortMismatch | MergedDemand | OutsideScope | UnregisteredSubject
                | TeacherCapacity | ResourceCapacity | BlockTooSmall | BlockGroupMissing | LearnerOverlap | CoverageData

  datatype Issue = Issue(code: Code, entity: Id)

  ghost predicate Mentioned(issues: seq<Issue>, code: Code) {
    exists i | i in issues :: i.code == code
  }

  method Add(issues: seq<Issue>, raised: bool, code: Code, entity: Id) returns (more: seq<Issue>)
    ensures forall c :: Mentioned(more, c) <==> Mentioned(issues, c) || (raised && c == code)
    ensures raised ==> more != []
  {
    more := issues;
    if raised {
      more := issues + [Issue(code, entity)];
      assert more[|issues|].code == code;
      assert forall i | i in issues :: i in more;
    }
  }

  // ----- groups

  predicate CountedGroup(problem: Problem, g: Group) {
    g.active && g.workspace == problem.workspace
  }

  predicate EligibleMember(problem: Problem, g: Group, l: Id) {
    && l in problem.learners && problem.learners[l].workspace == problem.workspace && problem.learners[l].active
    && problem.learners[l].cohort in g.cohorts
  }

  predicate Mismatched(problem: Problem, g: Group, id: Id) {
    id in Schedule(problem) && (Schedule(problem)[id].teacher != g.teacher || Schedule(problem)[id].subject != g.subject)
  }

  predicate Outside(problem: Problem, g: Group, id: Id) {
    id in Schedule(problem) && Schedule(problem)[id].cohort !in g.cohorts
  }

  ghost predicate SomeIneligible(problem: Problem, g: Group) {
    exists l | l in UniqueIds(g.learners) :: !EligibleMember(problem, g, l)
  }

  ghost predicate SomeMissing(problem: Problem, g: Group) {
    exists id | id in UniqueIds(g.assignments) :: id !in Schedule(problem)
  }

  ghost predicate SomeMismatched(problem: Problem, g: Group) {
    exists id | id in UniqueIds(g.assignments) :: Mismatched(problem, g, id)
  }

  ghost predicate SomeOutside(problem: Problem, g: Group) {
    exists id | id in UniqueIds(g.assignments) :: Outside(problem, g, id)
  }

  ghost predicate GroupObjects(problem: Problem, g: Group, code: Code) {
    CountedGroup(problem, g)
    && match code
       case InvalidGroupDemand => g.weekly <= 0
       case InvalidDoubles => g.doubles * 2 > g.weekly
       case MissingTeacher => !LocalTeacher(problem, g.teacher)
       case IneligibleLearner => SomeIneligible(problem, g)
       case MissingAssignment => SomeMissing(problem, g)
       case TeacherMismatch => SomeMismatched(problem, g)
       case CohortMismatch => SomeOutside(problem, g)
       case _ => false
  }

  /** The periods that groups claim from an assignment. */
  function Claimed(problem: Problem, groups: seq<Group>, id: Id): int {
    if groups == [] then 0
    else
      var g := groups[|groups| - 1];
      Claimed(problem, groups[..|groups| - 1], id) + if CountedGroup(problem, g) && id in UniqueIds(g.assignments) then g.weekly else 0
  }

  ghost predicate SomeGroupObjects(problem: Problem, groups: seq<Group>, code: Code) {
    exists g | g in groups :: GroupObjects(problem, g, code)
  }

  method CheckMembers(problem: Problem, g: Group, before: seq<Issue>) returns (issues: seq<Issue>)
    ensures forall c :: Mentioned(issues, c) <==> Mentioned(before, c) || (c == IneligibleLearner && SomeIneligible(problem, g))
  {
    issues := before;
    var ids := UniqueIds(g.learners);
    hide EligibleMember, UniqueIds;
    ghost var found := false;
    for k := 0 to |ids|
      invariant found <==> exists j | 0 <= j < k :: !EligibleMember(problem, g, ids[j])
      invariant forall c :: Mentioned(issues, c) <==> Mentioned(before, c) || (c == IneligibleLearner && found)
    {
      found := found || !EligibleMember(problem, g, ids[k]);
      issues := Add(issues, !EligibleMember(problem, g, ids[k]), IneligibleLearner, ids[k]);
    }
  }

  method CheckCovered(problem: Problem, assignments: map<Id, Assignment>, g: Group, before: seq<Issue>) returns (issues: seq<Issue>)
    requires assignments == Schedule(problem)
    ensures forall c :: Mentioned(issues, c) <==>
              || Mentioned(before, c)
              || (c == MissingAssignment && SomeMissing(problem, g))
              || (c == TeacherMismatch && SomeMismatched(problem, g))
              || (c == CohortMismatch && SomeOutside(problem, g))
  {
    issues := before;
    var ids := UniqueIds(g.assignments);
    hide Schedule, UniqueIds;
    ghost var missing, mismatched, outside := false, false, false;
    for k := 0 to |ids|
      invariant missing <==> exists j | 0 <= j < k :: ids[j] !in assignments
      invariant mismatched <==> exists j | 0 <= j < k :: Mismatched(problem, g, ids[j])
      invariant outside <==> exists j | 0 <= j < k :: Outside(problem, g, ids[j])
      invariant forall c :: Mentioned(issues, c) <==>
                  || Mentioned(before, c) || (c == MissingAssignment && missing)
                  || (c == TeacherMismatch && mismatched) || (c == CohortMismatch && outside)
    {
      var id := ids[k];
      missing, mismatched, outside := missing || id !in assignments, mismatched || Mismatched(problem, g, id), outside || Outside(problem, g, id);
      if id !in assignments {
        issues := Add(issues, true, MissingAssignment, id);
        continue;
      }
      var a := assignments[id];
      issues := Add(issues, a.teacher != g.teacher || a.subject != g.subject, TeacherMismatch, id);
      issues := Add(issues, a.cohort !in g.cohorts, CohortMismatch, g.id);
    }
  }

  method CheckGroup(problem: Problem, assignments: map<Id, Assignment>, g: Group, before: seq<Issue>) returns (issues: seq<Issue>)
    requires assignments == Schedule(problem) && CountedGroup(problem, g)
    ensures forall c :: Mentioned(issues, c) <==> Mentioned(before, c) || GroupObjects(problem, g, c)
  {
    hide Schedule, Mentioned, SomeIneligible, SomeMissing, SomeMismatched, SomeOutside;
    issues := Add(before, g.weekly <= 0, InvalidGroupDemand, g.id);
    issues := Add(issues, g.doubles * 2 > g.weekly, InvalidDoubles, g.id);
    issues := Add(issues, !LocalTeacher(problem, g.teacher), MissingTeacher, g.id);
    issues := CheckMembers(problem, g, issues);
    issues := CheckCovered(problem, assignments, g, issues);
  }

  lemma GroupsAppend(problem: Problem, groups: seq<Group>, g: Group)
    ensures forall c :: SomeGroupObjects(problem, groups + [g], c) <==> SomeGroupObjects(problem, groups, c) || GroupObjects(problem, g, c)
    ensures forall id :: Claimed(problem, groups + [g], id)
                      == Claimed(problem, groups, id) + if CountedGroup(problem, g) && id in UniqueIds(g.assignments) then g.weekly else 0
  {
    assert (groups + [g])[..|groups|] == groups;
    hide GroupObjects, Schedule;
    assert forall h :: h in groups + [g] <==> h in groups || h == g;
  }

  /** The loop over the groups: their issues, and what they claim from each assignment. */
  method CheckGroups(problem: Problem, assignments: map<Id, Assignment>, before: seq<Issue>) returns (issues: seq<Issue>, claimed: map<Id, int>)
    requires assignments == Schedule(problem)
    ensures forall c :: Mentioned(issues, c) <==> Mentioned(before, c) || SomeGroupObjects(problem, problem.groups, c)
    ensures forall id: Id :: Left(claimed, id) == Claimed(problem, problem.groups, id)
  {
    hide Schedule, Mentioned, Left, GroupObjects, CountedGroup;
    issues, claimed := before, map[];
    var groups := problem.groups;
    assert groups[..0] == [];
    assert forall id: Id :: Left(map[], id) == 0 by {
      EmptyLeft();
    }
    for k := 0 to |groups|
      invariant forall c :: Mentioned(issues, c) <==> Mentioned(before, c) || SomeGroupObjects(problem, groups[..k], c)
      invariant forall id: Id :: Left(claimed, id) == Claimed(problem, groups[..k], id)
    {
      var g := groups[k];
      assert groups[..k + 1] == groups[..k] + [g];
      GroupsAppend(problem, groups[..k], g);
      Uncounted(problem, g);
      hide *;
      if CountedGroup(problem, g) {
        issues := CheckGroup(problem, assignments, g, issues);
        claimed := TakeFrom(claimed, UniqueIds(g.assignments), -g.weekly);
      }
    }
    assert groups[..|groups|] == groups;
  }

  lemma EmptyLeft()
    ensures forall id: Id :: Left(map[], id) == 0
  {
  }

  lemma Uncounted(problem: Problem, g: Group)
    ensures !CountedGroup(problem, g) ==> forall c :: !GroupObjects(problem, g, c)
  {
  }

  ghost predicate SomeMerged(problem: Problem) {
    exists id | id in Schedule(problem) :: Claimed(problem, problem.groups, id) > Schedule(problem)[id].weekly
  }

  method CheckMerged(problem: Problem, assignments: map<Id, Assignment>, claimed: map<Id, int>, before: seq<Issue>) returns (issues: seq<Issue>)
    requires WellFormed(problem) && assignments == Schedule(problem)
    requires forall id: Id :: Left(claimed, id) == Claimed(problem, problem.groups, id)
    ensures forall c :: Mentioned(issues, c) <==> Mentioned(before, c) || (c == MergedDemand && SomeMerged(problem))
  {
    ScheduleEntries(problem);
    hide Schedule, Mentioned, WellFormed;
    issues := before;
    var keys := KeysInSomeOrder(claimed);
    ghost var found := false;
    for k := 0 to |keys|
      invariant found <==> exists j | 0 <= j < k :: keys[j] in assignments && claimed[keys[j]] > assignments[keys[j]].weekly
      invariant forall c :: Mentioned(issues, c) <==> Mentioned(before, c) || (c == MergedDemand && found)
    {
      var id := keys[k];
      var over := id in assignments && claimed[id] > assignments[id].weekly;
      found := found || over;
      issues := Add(issues, over, MergedDemand, id);
    }
    MergedFound(problem, claimed, keys, found);
  }

  lemma MergedFound(problem: Problem, claimed: map<Id, int>, keys: seq<Id>, found: bool)
    requires WellFormed(problem) && forall k :: k in keys <==> k in claimed
    requires forall id: Id :: Left(claimed, id) == Claimed(problem, problem.groups, id)
    requires found <==> exists j | 0 <= j < |keys| :: keys[j] in Schedule(problem) && claimed[keys[j]] > Schedule(problem)[keys[j]].weekly
    ensures found <==> SomeMerged(problem)
  {
    ScheduleEntries(problem);
    hide Schedule, WellFormed;
    if id :| id in Schedule(problem) && Claimed(problem, problem.groups, id) > Schedule(problem)[id].weekly {
      assert Left(claimed, id) > 0;
      assert id in keys;
    }
    if j :| 0 <= j < |keys| && keys[j] in Schedule(problem) && claimed[keys[j]] > Schedule(problem)[keys[j]].weekly {
      assert keys[j] in claimed;
      assert Left(claimed, keys[j]) == Claimed(problem, problem.groups, keys[j]);
    }
  }

  // ----- tasks

  predicate OutOfScope(problem: Problem, id: Id) {
    id in Schedule(problem) && (Schedule(problem)[id].year != problem.year || Schedule(problem)[id].term != problem.term)
  }

  predicate Unregistered(problem: Problem, id: Id) {
    id in Schedule(problem) && (Schedule(problem)[id].cohort, Schedule(problem)[id].cohortSubject) !in problem.registrations
  }

  ghost predicate SomeOutOfScope(problem: Problem, t: Spec) {
    exists id | id in t.assignments :: OutOfScope(problem, id)
  }

  ghost predicate SomeUnregistered(problem: Problem, t: Spec) {
    exists id | id in t.assignments :: Unregistered(problem, id)
  }

  ghost predicate TaskObjects(problem: Problem, t: Spec, code: Code) {
    t.weekly > 0
    && match code
       case InvalidDoubles => t.doubles * 2 > t.weekly
       case OutsideScope => SomeOutOfScope(problem, t)
       case UnregisteredSubject => SomeUnregistered(problem, t)
       case _ => false
  }

  ghost predicate SomeTaskObjects(problem: Problem, specs: seq<Spec>, code: Code) {
    exists t | t in specs :: TaskObjects(problem, t, code)
  }

  /** What the tasks need of a teacher or a resource. */
  datatype Use = OfTeacher(id: Id) | OfResource(id: Id)

  predicate Uses(t: Spec, use: Use) {
    t.weekly > 0 && match use case OfTeacher(id) => t.teacher == id case OfResource(id) => t.resource == id && id != NO_ID
  }

  function Need(specs: seq<Spec>, use: Use): int {
    if specs == [] then 0
    else Need(specs[..|specs| - 1], use) + if Uses(specs[|specs| - 1], use) then specs[|specs| - 1].weekly else 0
  }

  lemma TasksAppend(problem: Problem, specs: seq<Spec>, t: Spec)
    ensures forall c :: SomeTaskObjects(problem, specs + [t], c) <==> SomeTaskObjects(problem, specs, c) || TaskObjects(problem, t, c)
    ensures forall use :: Need(specs + [t], use) == Need(specs, use) + if Uses(t, use) then t.weekly else 0
  {
    assert (specs + [t])[..|specs|] == specs;
    hide TaskObjects, Uses;
    assert forall u :: u in specs + [t] <==> u in specs || u == t;
  }

  method CheckTask(problem: Problem, assignments: map<Id, Assignment>, t: Spec, before: seq<Issue>) returns (issues: seq<Issue>)
    requires assignments == Schedule(problem) && t.weekly > 0
    ensures forall c :: Mentioned(issues, c) <==> Mentioned(before, c) || TaskObjects(problem, t, c)
  {
    hide Schedule, Mentioned;
    issues := Add(before, t.doubles * 2 > t.weekly, InvalidDoubles, t.key.id);
    ghost var entered := issues;
    ghost var outside, unregistered := false, false;
    for k := 0 to |t.assignments|
      invariant outside <==> exists j | 0 <= j < k :: OutOfScope(problem, t.assignments[j])
      invariant unregistered <==> exists j | 0 <= j < k :: Unregistered(problem, t.assignments[j])
      invariant forall c :: Mentioned(issues, c) <==>
                  Mentioned(entered, c) || (c == OutsideScope && outside) || (c == UnregisteredSubject && unregistered)
    {
      var id := t.assignments[k];
      outside, unregistered := outside || OutOfScope(problem, id), unregistered || Unregistered(problem, id);
      if id !in assignments {
        continue;
      }
      var a := assignments[id];
      issues := Add(issues, a.year != problem.year || a.term != problem.term, OutsideScope, id);
      issues := Add(issues, (a.cohort, a.cohortSubject) !in problem.registrations, UnregisteredSubject, id);
    }
  }

  /** The totals per teacher and per resource. */
  ghost predicate Totalled(specs: seq<Spec>, need: map<Use, int>) {
    && (forall use :: use in need <==> exists t | t in specs :: Uses(t, use))
    && forall use | use in need :: need[use] == Need(specs, use)
  }

  lemma {:induction false} NeededBySomeone(specs: seq<Spec>, use: Use)
    ensures Need(specs, use) != 0 ==> exists t | t in specs :: Uses(t, use)
  {
    if specs != [] {
      assert specs == specs[..|specs| - 1] + [specs[|specs| - 1]];
      NeededBySomeone(specs[..|specs| - 1], use);
    }
  }

  method AddNeed(need: map<Use, int>, ghost specs: seq<Spec>, t: Spec) returns (r: map<Use, int>)
    requires Totalled(specs, need) && t.weekly > 0
    ensures Totalled(specs + [t], r)
  {
    r := need[OfTeacher(t.teacher) := Left(need, OfTeacher(t.teacher)) + t.weekly];
    if t.resource != NO_ID {
      r := r[OfResource(t.resource) := Left(need, OfResource(t.resource)) + t.weekly];
    }
    forall use
      ensures use in r <==> exists u | u in specs + [t] :: Uses(u, use)
      ensures use in r ==> r[use] == Need(specs + [t], use)
    {
      NeededBySomeone(specs, use);
      assert (specs + [t])[..|specs|] == specs;
      assert (exists u | u in specs + [t] :: Uses(u, use)) <==> (exists u | u in specs :: Uses(u, use)) || Uses(t, use) by {
        assert forall u :: u in specs + [t] <==> u in specs || u == t;
      }
    }
  }

  method CheckTasks(problem: Problem, assignments: map<Id, Assignment>, specs: seq<Spec>, before: seq<Issue>)
    returns (issues: seq<Issue>, need: map<Use, int>)
    requires assignments == Schedule(problem)
    ensures forall c :: Mentioned(issues, c) <==> Mentioned(before, c) || SomeTaskObjects(problem, specs, c)
    ensures Totalled(specs, need)
  {
    issues, need := before, map[];
    assert specs[..0] == [] && Totalled([], need);
    hide Schedule, Mentioned, TaskObjects, Totalled, SomeTaskObjects;
    NoTaskObjects(problem);
    for k := 0 to |specs|
      invariant forall c :: Mentioned(issues, c) <==> Mentioned(before, c) || SomeTaskObjects(problem, specs[..k], c)
      invariant Totalled(specs[..k], need)
    {
      var t := specs[k];
      assert specs[..k + 1] == specs[..k] + [t];
      TasksAppend(problem, specs[..k], t);
      if t.weekly <= 0 {
        Skipped(problem, specs[..k], t, need);
        continue;
      }
      need := AddNeed(need, specs[..k], t);
      issues := CheckTask(problem, assignments, t, issues);
    }
    assert specs[..|specs|] == specs;
  }

  lemma NoTaskObjects(problem: Problem)
    ensures forall c :: !SomeTaskObjects(problem, [], c)
  {
  }

  lemma Skipped(problem: Problem, specs: seq<Spec>, t: Spec, need: map<Use, int>)
    requires t.weekly <= 0 && Totalled(specs, need)
    ensures Totalled(specs + [t], need) && forall c :: !TaskObjects(problem, t, c)
  {
    TasksAppend(problem, specs, t);
    assert forall u :: u in specs + [t] <==> u in specs || u == t;
  }

  // ----- capacities

  /** The periods a teacher or a resource has for the tasks; an unknown teacher counts as always available. */
  function Capability(problem: Problem, use: Use): int {
    match use
    case OfTeacher(t) => if t in problem.teachers then WorkloadCap(problem, problem.teachers[t]) else |UsablePeriods(problem)|
    case OfResource(r) =>
      if r in problem.resources && problem.resources[r].workspace == problem.workspace
      then AvailableCount(UsablePeriods(problem), problem.resources[r].unavailable) * Capacity(problem, r)
      else -1
  }

  ghost predicate Short(problem: Problem, specs: seq<Spec>, use: Use) {
    (exists t | t in specs :: Uses(t, use)) && Need(specs, use) > Capability(problem, use)
  }

  ghost predicate SomeShort(problem: Problem, specs: seq<Spec>, code: Code) {
    || (code == TeacherCapacity && exists id: Id :: Short(problem, specs, OfTeacher(id)))
    || (code == ResourceCapacity && exists id: Id :: Short(problem, specs, OfResource(id)))
  }

  /** The available periods, counted one by one. */
  method Available(problem: Problem, periods: seq<Period>, use: Use) returns (available: int)
    requires periods == UsablePeriods(problem)
    ensures available == Capability(problem, use)
  {
    match use {
      case OfTeacher(t) =>
        if t !in problem.teachers {
          return |periods|;
        }
        available := CountAvailable(periods, problem.teachers[t].unavailable);
        if 0 < problem.teachers[t].workloadLimit < available {
          available := problem.teachers[t].workloadLimit;
        }
      case OfResource(r) =>
        if r !in problem.resources || problem.resources[r].workspace != problem.workspace {
          return -1;
        }
        var count := CountAvailable(periods, problem.resources[r].unavailable);
        available := count * Capacity(problem, r);
    }
  }

  method UsesInSomeOrder(need: map<Use, int>) returns (keys: seq<Use>)
    ensures forall k :: k in keys <==> k in need
  {
    keys := [];
    var rest := need.Keys;
    while rest != {}
      invariant rest <= need.Keys
      invariant forall k :: k in keys <==> k in need && k !in rest
    {
      var k :| k in rest;
      keys, rest := keys + [k], rest - {k};
    }
  }

  function CodeOf(use: Use): Code {
    if use.OfTeacher? then TeacherCapacity else ResourceCapacity
  }

  method CheckCapacities(problem: Problem, periods: seq<Period>, specs: seq<Spec>, need: map<Use, int>, before: seq<Issue>)
    returns (issues: seq<Issue>)
    requires periods == UsablePeriods(problem) && Totalled(specs, need)
    ensures forall c :: Mentioned(issues, c) <==> Mentioned(before, c) || SomeShort(problem, specs, c)
  {
    hide Mentioned, Capability, UsablePeriods;
    issues := before;
    var keys := UsesInSomeOrder(need);
    for k := 0 to |keys|
      invariant forall c :: Mentioned(issues, c) <==>
                  Mentioned(before, c) || exists j | 0 <= j < k :: c == CodeOf(keys[j]) && need[keys[j]] > Capability(problem, keys[j])
    {
      var available := Available(problem, periods, keys[k]);
      issues := Add(issues, need[keys[k]] > available, CodeOf(keys[k]), keys[k].id);
    }
    forall c
      ensures (exists j | 0 <= j < |keys| :: c == CodeOf(keys[j]) && need[keys[j]] > Capability(problem, keys[j])) <==> SomeShort(problem, specs, c)
    {
      ShortFound(problem, specs, need, keys, c);
    }
  }

  lemma ShortFound(problem: Problem, specs: seq<Spec>, need: map<Use, int>, keys: seq<Use>, c: Code)
    requires Totalled(specs, need) && forall k :: k in keys <==> k in need
    ensures (exists j | 0 <= j < |keys| :: c == CodeOf(keys[j]) && need[keys[j]] > Capability(problem, keys[j])) <==> SomeShort(problem, specs, c)
  {
    hide Capability, Need, Uses;
    if j :| 0 <= j < |keys| && c == CodeOf(keys[j]) && need[keys[j]] > Capability(problem, keys[j]) {
      assert keys[j] in need && Short(problem, specs, keys[j]);
    }
    if SomeShort(problem, specs, c) {
      var id: Id :| (c == TeacherCapacity && Short(problem, specs, OfTeacher(id))) || (c == ResourceCapacity && Short(problem, specs, OfResource(id)));
      var use := if c == TeacherCapacity then OfTeacher(id) else OfResource(id);
      assert use in need && use in keys;
      var j :| 0 <= j < |keys| && keys[j] == use;
    }
  }

  // ----- parallel blocks

  ghost predicate HasTask(specs: seq<Spec>, g: Id) {
    exists t | t in specs :: t.key == GroupKey(g)
  }

  /** The group has a task that lists the learner. */
  ghost predicate Lists(specs: seq<Spec>, g: Id, l: Id) {
    exists t | t in specs :: t.key == GroupKey(g) && l in t.learners
  }

  ghost predicate SomeGroupMissing(specs: seq<Spec>, b: Block) {
    exists g | g in b.groups :: !HasTask(specs, g)
  }

  ghost predicate Overlaps(specs: seq<Spec>, groups: seq<Id>, i: nat, j: nat) {
    i < j < |groups| && exists l: Id :: Lists(specs, groups[i], l) && Lists(specs, groups[j], l)
  }

  ghost predicate SomeOverlap(specs: seq<Spec>, groups: seq<Id>) {
    exists i: nat, j: nat :: Overlaps(specs, groups, i, j)
  }

  ghost predicate BlockObjects(problem: Problem, specs: seq<Spec>, b: Block, code: Code) {
    ActiveBlock(problem, b)
    && match code
       case BlockTooSmall => |b.groups| < 2
       case BlockGroupMissing => SomeGroupMissing(specs, b)
       case LearnerOverlap => SomeOverlap(specs, b.groups)
       case _ => false
  }

  ghost predicate SomeBlockObjects(problem: Problem, specs: seq<Spec>, blocks: seq<Block>, code: Code) {
    exists b | b in blocks :: BlockObjects(problem, specs, b, code)
  }

  /** The task of each group. */
  ghost predicate IndexedSpecs(specs: seq<Spec>, byGroup: map<Id, Spec>) {
    && (forall g | g in byGroup :: byGroup[g] in specs && byGroup[g].key == GroupKey(g))
    && forall t | t in specs && t.key.GroupKey? :: t.key.id in byGroup
  }

  method IndexSpecs(specs: seq<Spec>) returns (byGroup: map<Id, Spec>)
    ensures IndexedSpecs(specs, byGroup)
  {
    byGroup := map[];
    for k := 0 to |specs|
      invariant IndexedSpecs(specs[..k], byGroup)
    {
      assert specs[..k + 1] == specs[..k] + [specs[k]];
      if specs[k].key.GroupKey? {
        byGroup := byGroup[specs[k].key.id := specs[k]];
      }
    }
    assert specs[..|specs|] == specs;
  }

  /** The learners of one member against those seen before. */
  method CheckLearners(learners: seq<Id>, seen: set<Id>, before: seq<Issue>) returns (issues: seq<Issue>, more: set<Id>)
    requires Distinct(learners)
    ensures forall l :: l in more <==> l in seen || l in learners
    ensures forall c :: Mentioned(issues, c) <==> Mentioned(before, c) || (c == LearnerOverlap && exists l | l in learners :: l in seen)
  {
    hide Mentioned;
    issues, more := before, seen;
    for k := 0 to |learners|
      invariant forall l :: l in more <==> l in seen || l in learners[..k]
      invariant forall c :: Mentioned(issues, c) <==> Mentioned(before, c) || (c == LearnerOverlap && exists j | 0 <= j < k :: learners[j] in seen)
    {
      issues := Add(issues, learners[k] in more, LearnerOverlap, learners[k]);
      more := more + {learners[k]};
    }
  }

  ghost predicate SeenBy(specs: seq<Spec>, groups: seq<Id>, seen: set<Id>) {
    forall l: Id :: l in seen <==> exists g | g in groups :: Lists(specs, g, l)
  }

  lemma OverlapAppend(specs: seq<Spec>, groups: seq<Id>, g: Id, seen: set<Id>)
    requires SeenBy(specs, groups, seen)
    ensures SomeOverlap(specs, groups + [g]) <==> SomeOverlap(specs, groups) || exists l: Id :: Lists(specs, g, l) && l in seen
  {
    hide Lists;
    var more := groups + [g];
    if SomeOverlap(specs, groups) {
      var i: nat, j: nat :| Overlaps(specs, groups, i, j);
      var l: Id :| Lists(specs, groups[i], l) && Lists(specs, groups[j], l);
      assert more[i] == groups[i] && more[j] == groups[j];
      assert Overlaps(specs, more, i, j);
    }
    if l: Id :| Lists(specs, g, l) && l in seen {
      var h :| h in groups && Lists(specs, h, l);
      var i :| 0 <= i < |groups| && groups[i] == h;
      assert more[i] == groups[i] && more[|groups|] == g && Lists(specs, more[i], l) && Lists(specs, more[|groups|], l);
      assert Overlaps(specs, more, i, |groups|);
    }
    if SomeOverlap(specs, more) {
      var i: nat, j: nat :| Overlaps(specs, more, i, j);
      var l: Id :| Lists(specs, more[i], l) && Lists(specs, more[j], l);
      if j < |groups| {
        assert Overlaps(specs, groups, i, j);
      } else {
        assert more[i] in groups && l in seen;
      }
    }
  }

  lemma SeenAppend(specs: seq<Spec>, groups: seq<Id>, g: Id, seen: set<Id>, more: set<Id>)
    requires SeenBy(specs, groups, seen) && forall l: Id :: l in more <==> l in seen || Lists(specs, g, l)
    ensures SeenBy(specs, groups + [g], more)
  {
    hide Lists;
    assert forall h :: h in groups + [g] <==> h in groups || h == g;
  }

  lemma TaskOf(specs: seq<Spec>, byGroup: map<Id, Spec>, g: Id)
    requires DistinctKeys(specs) && IndexedSpecs(specs, byGroup)
    ensures HasTask(specs, g) <==> g in byGroup
    ensures forall l: Id :: Lists(specs, g, l) <==> g in byGroup && l in byGroup[g].learners
  {
    if g in byGroup {
      SameKey(specs, byGroup[g]);
    }
  }

  lemma NoGroups(specs: seq<Spec>)
    ensures SeenBy(specs, [], {}) && !SomeOverlap(specs, [])
  {
  }

  method CheckBlock(problem: Problem, specs: seq<Spec>, byGroup: map<Id, Spec>, b: Block, before: seq<Issue>) returns (issues: seq<Issue>)
    requires DistinctKeys(specs) && IndexedSpecs(specs, byGroup) && ActiveBlock(problem, b) && forall t | t in specs :: Distinct(t.learners)
    ensures forall c :: Mentioned(issues, c) <==> Mentioned(before, c) || BlockObjects(problem, specs, b, c)
  {
    hide Mentioned, DistinctKeys, Lists, HasTask, SomeOverlap, SeenBy;
    issues := Add(before, |b.groups| < 2, BlockTooSmall, b.id);
    ghost var entered := issues;
    var seen: set<Id> := {};
    ghost var missing := false;
    NoGroups(specs);
    assert b.groups[..0] == [];
    for k := 0 to |b.groups|
      invariant missing <==> exists j | 0 <= j < k :: !HasTask(specs, b.groups[j])
      invariant SeenBy(specs, b.groups[..k], seen)
      invariant forall c :: Mentioned(issues, c) <==>
                  Mentioned(entered, c) || (c == BlockGroupMissing && missing) || (c == LearnerOverlap && SomeOverlap(specs, b.groups[..k]))
    {
      ghost var g, previous := b.groups[k], seen;
      assert b.groups[..k + 1] == b.groups[..k] + [g];
      TaskOf(specs, byGroup, g);
      OverlapAppend(specs, b.groups[..k], g, seen);
      missing := missing || !HasTask(specs, g);
      if b.groups[k] !in byGroup {
        issues := Add(issues, true, BlockGroupMissing, b.id);
      } else {
        issues, seen := CheckLearners(byGroup[b.groups[k]].learners, seen, issues);
      }
      SeenAppend(specs, b.groups[..k], g, previous, seen);
    }
    assert b.groups[..|b.groups|] == b.groups;
  }

  lemma BlocksAppend(problem: Problem, specs: seq<Spec>, blocks: seq<Block>, b: Block)
    ensures forall c :: SomeBlockObjects(problem, specs, blocks + [b], c) <==> SomeBlockObjects(problem, specs, blocks, c) || BlockObjects(problem, specs, b, c)
    ensures !ActiveBlock(problem, b) ==> forall c :: !BlockObjects(problem, specs, b, c)
  {
    assert forall d :: d in blocks + [b] <==> d in blocks || d == b;
  }

  method CheckBlocks(problem: Problem, specs: seq<Spec>, before: seq<Issue>) returns (issues: seq<Issue>)
    requires DistinctKeys(specs) && forall t | t in specs :: Distinct(t.learners)
    ensures forall c :: Mentioned(issues, c) <==> Mentioned(before, c) || SomeBlockObjects(problem, specs, problem.blocks, c)
  {
    var byGroup := IndexSpecs(specs);
    issues := before;
    var blocks := problem.blocks;
    assert blocks[..0] == [];
    assert forall c :: !SomeBlockObjects(problem, specs, [], c);
    hide Mentioned, DistinctKeys, SomeBlockObjects, BlockObjects, IndexedSpecs;
    for k := 0 to |blocks|
      invariant forall c :: Mentioned(issues, c) <==> Mentioned(before, c) || SomeBlockObjects(problem, specs, blocks[..k], c)
    {
      assert blocks[..k + 1] == blocks[..k] + [blocks[k]];
      BlocksAppend(problem, specs, blocks[..k], blocks[k]);
      if ActiveBlock(problem, blocks[k]) {
        issues := CheckBlock(problem, specs, byGroup, blocks[k], issues);
      }
    }
    assert blocks[..|blocks|] == blocks;
  }

  // ----- the whole analysis

  /** When each code is raised, for a task list of the problem. */
  ghost predicate Objects(problem: Problem, specs: seq<Spec>, code: Code) {
    match code
    case MissingScope => problem.workspace == NO_ID || problem.year == NO_ID || problem.term == NO_ID
    case NoUsablePeriods => UsablePeriods(problem) == []
    case _ =>
      UsablePeriods(problem) != []
      && (|| SomeGroupObjects(problem, problem.groups, code)
          || (code == MergedDemand && SomeMerged(problem))
          || SomeTaskObjects(problem, specs, code)
          || SomeShort(problem, specs, code)
          || SomeBlockObjects(problem, specs, problem.blocks, code)
          || (code == CoverageData && problem.fullCoverage && problem.learners == map[]))
  }

  /** The audience preflight has nothing to object, whatever the order of the assignments. */
  ghost predicate Feasible(problem: Problem) {
    forall specs, order, code | IsTaskList(problem, specs, order) :: !Objects(problem, specs, code)
  }

  method CheckAll(problem: Problem, assignments: map<Id, Assignment>, specs: seq<Spec>, periods: seq<Period>, before: seq<Issue>)
    returns (issues: seq<Issue>)
    requires WellFormed(problem) && assignments == Schedule(problem) && DistinctKeys(specs) && periods == UsablePeriods(problem)
    requires forall t | t in specs :: Distinct(t.learners)
    ensures forall c :: Mentioned(issues, c) <==>
              || Mentioned(before, c)
              || SomeGroupObjects(problem, problem.groups, c) || (c == MergedDemand && SomeMerged(problem))
              || SomeTaskObjects(problem, specs, c) || SomeShort(problem, specs, c)
              || SomeBlockObjects(problem, specs, problem.blocks, c)
              || (c == CoverageData && problem.fullCoverage && problem.learners == map[])
  {
    hide *;
    var claimed, need;
    issues, claimed := CheckGroups(problem, assignments, before);
    issues := CheckMerged(problem, assignments, claimed, issues);
    issues, need := CheckTasks(problem, assignments, specs, issues);
    issues := CheckCapacities(problem, periods, specs, need, issues);
    issues := CheckBlocks(problem, specs, issues);
    issues := Add(issues, problem.fullCoverage && problem.learners == map[], CoverageData, NO_ID);
  }

  lemma CodesApart(problem: Problem, specs: seq<Spec>, code: Code)
    requires code == MissingScope || code == NoUsablePeriods
    ensures !SomeGroupObjects(problem, problem.groups, code) && !SomeTaskObjects(problem, specs, code)
    ensures !SomeShort(problem, specs, code) && !SomeBlockObjects(problem, specs, problem.blocks, code)
  {
  }

  /** The issues are exactly those of the specification. */
  method AnalyzeAudience(problem: Problem) returns (issues: seq<Issue>, ghost specs: seq<Spec>, ghost order: seq<Id>)
    requires WellFormed(problem) && GroupsNamed(problem)
    ensures IsTaskList(problem, specs, order) && forall c :: Mentioned(issues, c) <==> Objects(problem, specs, c)
    ensures issues == [] <==> Feasible(problem)
  {
    var assignments := AssignmentById(OnlySchedulable(problem, problem.assignments));
    hide WellFormed, Mentioned, OnlySchedulable, AssignmentById, UsablePeriods, SomeGroupObjects, SomeMerged, SomeTaskObjects, SomeShort, SomeBlockObjects;
    var tasks;
    tasks, order := ComputeSpecs(problem, assignments);
    specs := tasks;
    TaskListFacts(problem, specs, order);
    var periods := ComputeUsablePeriods(problem);
    issues := Add([], problem.workspace == NO_ID || problem.year == NO_ID || problem.term == NO_ID, MissingScope, NO_ID);
    issues := Add(issues, periods == [], NoUsablePeriods, NO_ID);
    CodesApart(problem, specs, MissingScope);
    CodesApart(problem, specs, NoUsablePeriods);
    NothingMentioned();
    if periods != [] {
      issues := CheckAll(problem, assignments, tasks, periods, issues);
    }
    SilentIsFeasible(problem, specs, order);
    SomethingMentioned(issues);
  }

  lemma SomethingMentioned(issues: seq<Issue>)
    ensures issues == [] <==> forall c :: !Mentioned(issues, c)
  {
    if issues != [] {
      assert Mentioned(issues, issues[0].code);
    }
  }

  lemma NothingMentioned()
    ensures forall c :: !Mentioned([], c)
  {
  }

  // ----- the order of the assignments does not matter

  lemma SameMultiset(a: seq<Id>, b: seq<Id>)
    requires Distinct(a) && Distinct(b) && forall x :: x in a <==> x in b
    ensures multiset(a) == multiset(b)
  {
    DistinctMultiset(a);
    DistinctMultiset(b);
    forall x: Id
      ensures multiset(a)[x] == multiset(b)[x]
    {
      assert x in multiset(a) <==> x in a;
      assert x in multiset(b) <==> x in b;
    }
  }

  lemma NeedAppend(specs: seq<Spec>, t: Spec, use: Use)
    ensures Need(specs + [t], use) == Need(specs, use) + if Uses(t, use) then t.weekly else 0
  {
    hide Uses;
    assert (specs + [t])[..|specs|] == specs;
  }

  lemma {:induction false} NeedRemove(specs: seq<Spec>, i: nat, use: Use)
    requires i < |specs|
    ensures Need(specs, use) == Need(specs[..i] + specs[i + 1..], use) + if Uses(specs[i], use) then specs[i].weekly else 0
  {
    hide Uses, Need;
    var shorter, last := specs[..|specs| - 1], specs[|specs| - 1];
    assert specs == shorter + [last];
    NeedAppend(shorter, last, use);
    if i == |shorter| {
      assert specs[..i] + specs[i + 1..] == shorter;
    } else {
      NeedRemove(shorter, i, use);
      assert specs[..i] + specs[i + 1..] == (shorter[..i] + shorter[i + 1..]) + [last];
      NeedAppend(shorter[..i] + shorter[i + 1..], last, use);
    }
  }

  lemma {:induction false} NeedPermutation(s: seq<Spec>, t: seq<Spec>, use: Use)
    requires multiset(s) == multiset(t)
    ensures Need(s, use) == Need(t, use)
  {
    hide Uses;
    if s == [] {
      assert t == [];
    } else {
      var i := PickLast(s, t);
      NeedPermutation(s[..|s| - 1], t[..i] + t[i + 1..], use);
      NeedRemove(t, i, use);
    }
  }

  /** A task for the rest of the assignment, if there is a rest. */
  ghost function RestTask(problem: Problem, id: Id): multiset<Spec>
    requires id in Schedule(problem)
  {
    if Rest(problem, Schedule(problem)[id]) > 0 then multiset{RestSpec(problem, Schedule(problem)[id])} else multiset{}
  }

  lemma RestAppend(problem: Problem, order: seq<Id>, last: Id)
    requires (forall id | id in order :: id in Schedule(problem)) && last in Schedule(problem)
    ensures multiset(RestSpecs(problem, order + [last])) == multiset(RestSpecs(problem, order)) + RestTask(problem, last)
  {
    hide Schedule, Rest, RestSpec;
    assert (order + [last])[..|order|] == order;
  }

  lemma {:induction false} RestRemove(problem: Problem, order: seq<Id>, i: nat)
    requires i < |order| && forall id | id in order :: id in Schedule(problem)
    ensures forall id | id in order[..i] + order[i + 1..] :: id in Schedule(problem)
    ensures multiset(RestSpecs(problem, order)) == multiset(RestSpecs(problem, order[..i] + order[i + 1..])) + RestTask(problem, order[i])
  {
    hide Schedule, Rest, RestSpec, RestSpecs, RestTask;
    var n := |order| - 1;
    var shorter: seq<Id> := order[..n];
    assert order == shorter + [order[n]];
    assert forall id | id in order[..i] + order[i + 1..] :: id in order;
    RestAppend(problem, shorter, order[n]);
    if i == n {
      assert order[..i] + order[i + 1..] == shorter;
    } else {
      RestRemove(problem, shorter, i);
      var others: seq<Id> := shorter[..i] + shorter[i + 1..];
      assert order[..i] + order[i + 1..] == others + [order[n]];
      RestAppend(problem, others, order[n]);
    }
  }

  lemma {:induction false} RestPermutation(problem: Problem, a: seq<Id>, b: seq<Id>)
    requires multiset(a) == multiset(b)
    requires (forall id | id in a :: id in Schedule(problem)) && forall id | id in b :: id in Schedule(problem)
    ensures multiset(RestSpecs(problem, a)) == multiset(RestSpecs(problem, b))
  {
    hide Schedule, Rest, RestSpec;
    if a == [] {
      assert b == [];
    } else {
      var i := PickLast(a, b);
      RestRemove(problem, b, i);
      RestPermutation(problem, a[..|a| - 1], b[..i] + b[i + 1..]);
      RestRemove(problem, a, |a| - 1);
      assert a[..|a| - 1] + a[|a|..] == a[..|a| - 1];
    }
  }

  lemma SameTasks(problem: Problem, specs: seq<Spec>, order: seq<Id>, others: seq<Spec>, other: seq<Id>)
    requires IsTaskList(problem, specs, order) && IsTaskList(problem, others, other)
    ensures multiset(specs) == multiset(others)
  {
    hide Schedule, RestSpecs, GroupSpecs;
    SameMultiset(order, other);
    RestPermutation(problem, order, other);
  }

  /** Whatever the order of the assignments, the same codes are raised. */
  lemma SameObjections(problem: Problem, specs: seq<Spec>, order: seq<Id>, others: seq<Spec>, other: seq<Id>, code: Code)
    requires IsTaskList(problem, specs, order) && IsTaskList(problem, others, other)
    ensures Objects(problem, specs, code) ==> Objects(problem, others, code)
  {
    hide *;
    SameTasks(problem, specs, order, others, other);
    SameElements(specs, others);
    SameTaskObjections(problem, specs, others, code);
    SameShortage(problem, specs, others, code);
    SameBlocksObjections(problem, specs, others, code);
    SameVerdict(problem, specs, others, code);
  }

  lemma SameVerdict(problem: Problem, specs: seq<Spec>, others: seq<Spec>, code: Code)
    requires SomeTaskObjects(problem, specs, code) ==> SomeTaskObjects(problem, others, code)
    requires SomeShort(problem, specs, code) ==> SomeShort(problem, others, code)
    requires SomeBlockObjects(problem, specs, problem.blocks, code) ==> SomeBlockObjects(problem, others, problem.blocks, code)
    ensures Objects(problem, specs, code) ==> Objects(problem, others, code)
  {
    hide SomeTaskObjects, SomeShort, SomeBlockObjects, SomeGroupObjects, SomeMerged, UsablePeriods;
  }

  lemma SameTaskObjections(problem: Problem, specs: seq<Spec>, others: seq<Spec>, code: Code)
    requires forall t :: t in specs <==> t in others
    ensures SomeTaskObjects(problem, specs, code) ==> SomeTaskObjects(problem, others, code)
  {
    hide TaskObjects;
  }

  lemma SameShortage(problem: Problem, specs: seq<Spec>, others: seq<Spec>, code: Code)
    requires multiset(specs) == multiset(others) && forall t :: t in specs <==> t in others
    ensures SomeShort(problem, specs, code) ==> SomeShort(problem, others, code)
  {
    hide Uses, Capability;
    forall use
      ensures Short(problem, specs, use) ==> Short(problem, others, use)
    {
      NeedPermutation(specs, others, use);
    }
    hide Short;
  }

  lemma SameBlocksObjections(problem: Problem, specs: seq<Spec>, others: seq<Spec>, code: Code)
    requires forall t :: t in specs <==> t in others
    ensures SomeBlockObjects(problem, specs, problem.blocks, code) ==> SomeBlockObjects(problem, others, problem.blocks, code)
  {
    forall d
      ensures BlockObjects(problem, specs, d, code) ==> BlockObjects(problem, others, d, code)
    {
      SameBlockObjections(specs, others, d);
    }
    hide BlockObjects;
  }

  lemma SameBlockObjections(specs: seq<Spec>, others: seq<Spec>, d: Block)
    requires forall t :: t in specs <==> t in others
    ensures SomeGroupMissing(specs, d) <==> SomeGroupMissing(others, d)
    ensures SomeOverlap(specs, d.groups) <==> SomeOverlap(others, d.groups)
  {
    forall g: Id
      ensures HasTask(specs, g) <==> HasTask(others, g)
    {
    }
    forall g: Id, l: Id
      ensures Lists(specs, g, l) <==> Lists(others, g, l)
    {
    }
    hide HasTask, Lists;
    forall i: nat, j: nat
      ensures Overlaps(specs, d.groups, i, j) <==> Overlaps(others, d.groups, i, j)
    {
    }
    hide Overlaps;
  }

  /** Silence for one order of the assignments is silence for all. */
  lemma SilentIsFeasible(problem: Problem, specs: seq<Spec>, order: seq<Id>)
    requires IsTaskList(problem, specs, order)
    ensures (forall code :: !Objects(problem, specs, code)) <==> Feasible(problem)
  {
    hide IsTaskList, Objects;
    if forall code :: !Objects(problem, specs, code) {
      forall others, other, code | IsTaskList(problem, others, other)
        ensures !Objects(problem, others, code)
      {
        SameObjections(problem, others, other, specs, order, code);
      }
    }
  }
}

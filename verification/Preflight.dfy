/** `AnalyzeFeasibility` for timetables without audiences: necessary capacity conditions, checked before solving. */
module Preflight {
  import opened Model
  import opened Adjacency
  import opened TeacherMatching
  import Matching

  datatype Code = MissingScope | NoUsablePeriods | OutsideScope | MissingTeacher | MissingCohort | UnregisteredSubject | NotQualified
                | InvalidDoubles | TeacherCapacity | TeacherAdjacency | CohortCapacity | CohortAdjacency | CoverageMismatch
                | TotalCapacity | MissingResource | ResourceCapacity | TeacherShortage | EligibilityShortage

  /** A reason why no timetable can exist; the messages and the capacity figures are left out. */
  datatype Issue = Issue(code: Code, entity: Id)

  /** An assignment that counts towards demand: both of its ends are in the workspace. */
  predicate Bookable(problem: Problem, a: Assignment) {
    Schedulable(problem, a) && LocalTeacher(problem, a.teacher) && LocalCohort(problem, a.cohort)
  }

  // ----- demand

  /** Whose demand is summed. */
  datatype Target = OfTeacher(id: Id) | OfCohort(id: Id) | OfResource(id: Id) | OfAll

  datatype Axis = TeacherAxis | CohortAxis | ResourceAxis

  function On(axis: Axis, id: Id): Target {
    match axis
    case TeacherAxis => OfTeacher(id)
    case CohortAxis => OfCohort(id)
    case ResourceAxis => OfResource(id)
  }

  datatype Measure = WeeklyPeriods | DoubleBlocks

  predicate Hits(target: Target, a: Assignment) {
    match target
    case OfTeacher(t) => a.teacher == t
    case OfCohort(c) => a.cohort == c
    case OfResource(r) => a.resource == r && r != NO_ID
    case OfAll => true
  }

  function Amount(measure: Measure, a: Assignment): int {
    if measure.WeeklyPeriods? then a.weekly else a.doubles
  }

  function Demand(problem: Problem, list: seq<Assignment>, target: Target, measure: Measure): int {
    if list == [] then 0
    else
      var a := list[|list| - 1];
      Demand(problem, list[..|list| - 1], target, measure) + if Bookable(problem, a) && Hits(target, a) then Amount(measure, a) else 0
  }

  ghost predicate Demanded(problem: Problem, list: seq<Assignment>, target: Target) {
    exists a | a in list :: Bookable(problem, a) && Hits(target, a)
  }

  lemma DemandAppend(problem: Problem, list: seq<Assignment>, a: Assignment, target: Target, measure: Measure)
    ensures Demand(problem, list + [a], target, measure)
         == Demand(problem, list, target, measure) + if Bookable(problem, a) && Hits(target, a) then Amount(measure, a) else 0
    ensures Demanded(problem, list + [a], target) <==> Demanded(problem, list, target) || (Bookable(problem, a) && Hits(target, a))
  {
    assert (list + [a])[..|list|] == list;
  }

  lemma {:induction false} NotDemanded(problem: Problem, list: seq<Assignment>, target: Target, measure: Measure)
    requires !Demanded(problem, list, target)
    ensures Demand(problem, list, target, measure) == 0
  {
    if list != [] {
      assert list == list[..|list| - 1] + [list[|list| - 1]];
      NotDemanded(problem, list[..|list| - 1], target, measure);
    }
  }

  function Get(m: map<Id, int>, k: Id): int {
    if k in m then m[k] else 0
  }

  /** The demand totals that the first loop accumulates. */
  datatype Totals = Totals(teacher: map<Id, int>, cohort: map<Id, int>, teacherDoubles: map<Id, int>, cohortDoubles: map<Id, int>,
                           resource: map<Id, int>, total: int)

  ghost predicate Summed(problem: Problem, list: seq<Assignment>, m: map<Id, int>, axis: Axis, measure: Measure) {
    && (forall k :: k in m <==> Demanded(problem, list, On(axis, k)))
    && (forall k | k in m :: m[k] == Demand(problem, list, On(axis, k), measure))
  }

  ghost predicate Totalled(problem: Problem, list: seq<Assignment>, d: Totals) {
    && Summed(problem, list, d.teacher, TeacherAxis, WeeklyPeriods)
    && Summed(problem, list, d.teacherDoubles, TeacherAxis, DoubleBlocks)
    && Summed(problem, list, d.cohort, CohortAxis, WeeklyPeriods)
    && Summed(problem, list, d.cohortDoubles, CohortAxis, DoubleBlocks)
    && Summed(problem, list, d.resource, ResourceAxis, WeeklyPeriods)
    && d.total == Demand(problem, list, OfAll, WeeklyPeriods)
  }

  /** Adding a counted assignment to the entry it hits. */
  lemma SummedAdd(problem: Problem, list: seq<Assignment>, m: map<Id, int>, axis: Axis, measure: Measure, a: Assignment, key: Id)
    requires Summed(problem, list, m, axis, measure) && Bookable(problem, a)
    requires forall k :: Hits(On(axis, k), a) <==> k == key
    ensures Summed(problem, list + [a], m[key := Get(m, key) + Amount(measure, a)], axis, measure)
  {
    hide Bookable, Hits, Demanded, Demand;
    var after := m[key := Get(m, key) + Amount(measure, a)];
    if key !in m {
      NotDemanded(problem, list, On(axis, key), measure);
    }
    forall k
      ensures k in after <==> Demanded(problem, list + [a], On(axis, k))
      ensures k in after ==> after[k] == Demand(problem, list + [a], On(axis, k), measure)
    {
      DemandAppend(problem, list, a, On(axis, k), measure);
    }
  }

  lemma SummedSkip(problem: Problem, list: seq<Assignment>, m: map<Id, int>, axis: Axis, measure: Measure, a: Assignment)
    requires Summed(problem, list, m, axis, measure)
    requires forall k :: !(Bookable(problem, a) && Hits(On(axis, k), a))
    ensures Summed(problem, list + [a], m, axis, measure)
  {
    hide Bookable, Hits, Demanded, Demand;
    forall k
      ensures k in m <==> Demanded(problem, list + [a], On(axis, k))
      ensures k in m ==> m[k] == Demand(problem, list + [a], On(axis, k), measure)
    {
      DemandAppend(problem, list, a, On(axis, k), measure);
    }
  }

  // ----- when each issue is raised

  ghost predicate AssignmentRaises(problem: Problem, a: Assignment, i: Issue) {
    && Schedulable(problem, a)
    && match i.code
       case OutsideScope => i.entity == a.id && (a.year != problem.year || a.term != problem.term)
       case MissingTeacher => i.entity == a.id && !LocalTeacher(problem, a.teacher)
       case MissingCohort => i.entity == a.id && LocalTeacher(problem, a.teacher) && !LocalCohort(problem, a.cohort)
       case UnregisteredSubject => i.entity == a.id && Bookable(problem, a) && (a.cohort, a.cohortSubject) !in problem.registrations
       case NotQualified =>
         && Bookable(problem, a) && i.entity == problem.teachers[a.teacher].id
         && problem.teachers[a.teacher].qualified != {} && a.subject !in problem.teachers[a.teacher].qualified
       case InvalidDoubles => i.entity == a.id && Bookable(problem, a) && a.doubles * 2 > a.weekly
       case _ => false
  }

  ghost predicate SomeAssignmentRaises(problem: Problem, list: seq<Assignment>, i: Issue) {
    exists a | a in list :: AssignmentRaises(problem, a, i)
  }

  ghost predicate TeacherRaises(problem: Problem, t: Id, code: Code) {
    && Demanded(problem, problem.assignments, OfTeacher(t)) && t in problem.teachers
    && match code
       case TeacherCapacity =>
         Demand(problem, problem.assignments, OfTeacher(t), WeeklyPeriods) > WorkloadCap(problem, problem.teachers[t])
       case TeacherAdjacency =>
         Demand(problem, problem.assignments, OfTeacher(t), DoubleBlocks)
         > |Greedy(UsablePeriods(problem), 0, problem.teachers[t].unavailable)|
       case _ => false
  }

  ghost predicate CohortRaises(problem: Problem, c: Id, code: Code) {
    && Demanded(problem, problem.assignments, OfCohort(c)) && c in problem.cohorts
    && match code
       case CohortCapacity =>
         Demand(problem, problem.assignments, OfCohort(c), WeeklyPeriods)
         > AvailableCount(UsablePeriods(problem), problem.cohorts[c].unavailable)
       case CohortAdjacency =>
         Demand(problem, problem.assignments, OfCohort(c), DoubleBlocks)
         > |Greedy(UsablePeriods(problem), 0, problem.cohorts[c].unavailable)|
       case CoverageMismatch =>
         problem.fullCoverage && Demand(problem, problem.assignments, OfCohort(c), WeeklyPeriods) != |UsablePeriods(problem)|
       case _ => false
  }

  ghost predicate ResourceRaises(problem: Problem, r: Id, code: Code) {
    && Demanded(problem, problem.assignments, OfResource(r))
    && var local := r in problem.resources && problem.resources[r].workspace == problem.workspace;
       match code
       case MissingResource => !local
       case ResourceCapacity =>
         local && Demand(problem, problem.assignments, OfResource(r), WeeklyPeriods)
                  > AvailableCount(UsablePeriods(problem), problem.resources[r].unavailable) * Capacity(problem, r)
       case _ => false
  }

  ghost function CohortsRequired(problem: Problem, per: Id): set<Id> {
    set c | c in problem.cohorts && LocalCohort(problem, c) && !CohortBlocked(problem, c, per)
  }

  ghost function TeachersAvailable(problem: Problem, per: Id): set<Id> {
    set t | t in problem.teachers && LocalTeacher(problem, t) && !TeacherBlocked(problem, t, per)
  }

  /** An assignment that could be taught in the period. */
  predicate Eligible(problem: Problem, a: Assignment, per: Id) {
    && Schedulable(problem, a) && a.teacher in problem.teachers && a.cohort in problem.cohorts
    && !TeacherBlocked(problem, a.teacher, per) && !CohortBlocked(problem, a.cohort, per)
  }

  function EligibleEdges(problem: Problem, list: seq<Assignment>, per: Id): seq<Matching.Edge> {
    if list == [] then []
    else
      var a, rest := list[|list| - 1], EligibleEdges(problem, list[..|list| - 1], per);
      if Eligible(problem, a, per) then rest + [Matching.Edge(a.teacher, a.cohort, a.id)] else rest
  }

  ghost predicate PeriodRaises(problem: Problem, per: Id, code: Code) {
    && problem.fullCoverage
    && match code
       case TeacherShortage => |TeachersAvailable(problem, per)| < |CohortsRequired(problem, per)|
       case EligibilityShortage =>
         forall choice | IsDisjointChoice(EligibleEdges(problem, problem.assignments, per), choice) ::
           |choice| < |CohortsRequired(problem, per)|
       case _ => false
  }

  /** The sum of the capacities of the teachers in `ids`. */
  ghost function Capacities(problem: Problem, ids: set<Id>): int
    requires ids <= problem.teachers.Keys
  {
    if ids == {} then 0
    else
      var t :| t in ids;
      Capacities(problem, ids - {t}) + WorkloadCap(problem, problem.teachers[t])
  }

  ghost function LocalTeachers(problem: Problem): set<Id> {
    set t | t in problem.teachers && LocalTeacher(problem, t)
  }

  ghost predicate Raises(problem: Problem, i: Issue) {
    match i.code
    case MissingScope => i.entity == NO_ID && (problem.workspace == NO_ID || problem.year == NO_ID || problem.term == NO_ID)
    case NoUsablePeriods => i.entity == NO_ID && UsablePeriods(problem) == []
    case TeacherCapacity => TeacherRaises(problem, i.entity, i.code)
    case TeacherAdjacency => TeacherRaises(problem, i.entity, i.code)
    case CohortCapacity => CohortRaises(problem, i.entity, i.code)
    case CohortAdjacency => CohortRaises(problem, i.entity, i.code)
    case CoverageMismatch => CohortRaises(problem, i.entity, i.code)
    case TotalCapacity =>
      i.entity == NO_ID && Demand(problem, problem.assignments, OfAll, WeeklyPeriods) > Capacities(problem, LocalTeachers(problem))
    case MissingResource => ResourceRaises(problem, i.entity, i.code)
    case ResourceCapacity => ResourceRaises(problem, i.entity, i.code)
    case TeacherShortage => exists p | p in UsablePeriods(problem) :: p.id == i.entity && PeriodRaises(problem, p.id, i.code)
    case EligibilityShortage => exists p | p in UsablePeriods(problem) :: p.id == i.entity && PeriodRaises(problem, p.id, i.code)
    case _ => SomeAssignmentRaises(problem, problem.assignments, i)
  }

  /** The preflight has nothing to object. */
  ghost predicate Feasible(problem: Problem) {
    forall i :: !Raises(problem, i)
  }

  lemma {:induction false} CapacitiesRemove(problem: Problem, ids: set<Id>, t: Id)
    requires ids <= problem.teachers.Keys && t in ids
    ensures Capacities(problem, ids) == Capacities(problem, ids - {t}) + WorkloadCap(problem, problem.teachers[t])
    decreases ids
  {
    hide WorkloadCap;
    var u :| u in ids && Capacities(problem, ids) == Capacities(problem, ids - {u}) + WorkloadCap(problem, problem.teachers[u]);
    if u != t {
      CapacitiesRemove(problem, ids - {u}, t);
      CapacitiesRemove(problem, ids - {t}, u);
      assert ids - {u} - {t} == ids - {t} - {u};
    }
  }

  // ----- the checks

  method Add(issues: seq<Issue>, raised: bool, i: Issue) returns (more: seq<Issue>)
    ensures forall j :: j in more <==> j in issues || (raised && j == i)
  {
    more := if raised then issues + [i] else issues;
  }

  method CheckAssignment(problem: Problem, a: Assignment, before: seq<Issue>) returns (issues: seq<Issue>)
    requires Schedulable(problem, a)
    ensures forall i :: i in issues <==> i in before || AssignmentRaises(problem, a, i)
  {
    issues := Add(before, a.year != problem.year || a.term != problem.term, Issue(OutsideScope, a.id));
    if !LocalTeacher(problem, a.teacher) {
      issues := Add(issues, true, Issue(MissingTeacher, a.id));
      return;
    }
    if !LocalCohort(problem, a.cohort) {
      issues := Add(issues, true, Issue(MissingCohort, a.id));
      return;
    }
    var teacher := problem.teachers[a.teacher];
    issues := Add(issues, (a.cohort, a.cohortSubject) !in problem.registrations, Issue(UnregisteredSubject, a.id));
    issues := Add(issues, teacher.qualified != {} && a.subject !in teacher.qualified, Issue(NotQualified, teacher.id));
    issues := Add(issues, a.doubles * 2 > a.weekly, Issue(InvalidDoubles, a.id));
  }

  function Book(m: map<Id, int>, key: Id, amount: int): map<Id, int> {
    m[key := Get(m, key) + amount]
  }

  function BookAll(d: Totals, a: Assignment): Totals {
    Totals(Book(d.teacher, a.teacher, a.weekly), Book(d.cohort, a.cohort, a.weekly),
           Book(d.teacherDoubles, a.teacher, a.doubles), Book(d.cohortDoubles, a.cohort, a.doubles),
           if a.resource != NO_ID then Book(d.resource, a.resource, a.weekly) else d.resource,
           d.total + a.weekly)
  }

  lemma TotalledBook(problem: Problem, list: seq<Assignment>, d: Totals, a: Assignment)
    requires Totalled(problem, list, d) && Bookable(problem, a)
    ensures Totalled(problem, list + [a], BookAll(d, a))
  {
    hide Summed, Demand, Demanded, Bookable;
    SummedAdd(problem, list, d.teacher, TeacherAxis, WeeklyPeriods, a, a.teacher);
    SummedAdd(problem, list, d.teacherDoubles, TeacherAxis, DoubleBlocks, a, a.teacher);
    SummedAdd(problem, list, d.cohort, CohortAxis, WeeklyPeriods, a, a.cohort);
    SummedAdd(problem, list, d.cohortDoubles, CohortAxis, DoubleBlocks, a, a.cohort);
    DemandAppend(problem, list, a, OfAll, WeeklyPeriods);
    if a.resource != NO_ID {
      SummedAdd(problem, list, d.resource, ResourceAxis, WeeklyPeriods, a, a.resource);
    } else {
      SummedSkip(problem, list, d.resource, ResourceAxis, WeeklyPeriods, a);
    }
  }

  lemma TotalledSkip(problem: Problem, list: seq<Assignment>, d: Totals, a: Assignment)
    requires Totalled(problem, list, d) && !Bookable(problem, a)
    ensures Totalled(problem, list + [a], d)
  {
    SummedSkip(problem, list, d.teacher, TeacherAxis, WeeklyPeriods, a);
    SummedSkip(problem, list, d.teacherDoubles, TeacherAxis, DoubleBlocks, a);
    SummedSkip(problem, list, d.cohort, CohortAxis, WeeklyPeriods, a);
    SummedSkip(problem, list, d.cohortDoubles, CohortAxis, DoubleBlocks, a);
    SummedSkip(problem, list, d.resource, ResourceAxis, WeeklyPeriods, a);
    DemandAppend(problem, list, a, OfAll, WeeklyPeriods);
    hide Summed;
  }

  lemma RaisesAppend(problem: Problem, list: seq<Assignment>, a: Assignment)
    ensures forall i :: SomeAssignmentRaises(problem, list + [a], i) <==> SomeAssignmentRaises(problem, list, i) || AssignmentRaises(problem, a, i)
  {
    hide AssignmentRaises;
    forall i
      ensures SomeAssignmentRaises(problem, list + [a], i) <==> SomeAssignmentRaises(problem, list, i) || AssignmentRaises(problem, a, i)
    {
      assert forall b :: b in list + [a] <==> b in list || b == a;
    }
  }

  /** The first loop: the per-assignment issues and the demand totals. */
  method CheckAssignments(problem: Problem, before: seq<Issue>) returns (issues: seq<Issue>, d: Totals)
    ensures forall i :: i in issues <==> i in before || SomeAssignmentRaises(problem, problem.assignments, i)
    ensures Totalled(problem, problem.assignments, d)
  {
    issues, d := before, Totals(map[], map[], map[], map[], map[], 0);
    var list := problem.assignments;
    assert list[..0] == [];
    hide AssignmentRaises;
    for k := 0 to |list|
      invariant forall i :: i in issues <==> i in before || SomeAssignmentRaises(problem, list[..k], i)
      invariant Totalled(problem, list[..k], d)
    {
      var a := list[k];
      assert list[..k + 1] == list[..k] + [a];
      issues, d := EnterAssignment(problem, list[..k], a, issues, d);
      RaisesAppend(problem, list[..k], a);
      hide *;
    }
    assert list[..|list|] == list;
  }

  method EnterAssignment(problem: Problem, ghost list: seq<Assignment>, a: Assignment, before: seq<Issue>, d: Totals)
    returns (issues: seq<Issue>, r: Totals)
    requires Totalled(problem, list, d)
    ensures forall i :: i in issues <==> i in before || AssignmentRaises(problem, a, i)
    ensures Totalled(problem, list + [a], r)
  {
    hide Totalled;
    issues, r := before, d;
    if !Schedulable(problem, a) {
      TotalledSkip(problem, list, d, a);
      return;
    }
    issues := CheckAssignment(problem, a, before);
    if Bookable(problem, a) {
      TotalledBook(problem, list, d, a);
      r := BookAll(d, a);
    } else {
      TotalledSkip(problem, list, d, a);
    }
  }

  method TeacherCapacityOf(problem: Problem, periods: seq<Period>, t: Teacher) returns (capacity: int)
    requires periods == UsablePeriods(problem)
    ensures capacity == WorkloadCap(problem, t)
  {
    capacity := CountAvailable(periods, t.unavailable);
    if t.workloadLimit > 0 && t.workloadLimit < capacity {
      capacity := t.workloadLimit;
    }
  }

  lemma TeacherEntry(problem: Problem, d: Totals, t: Id)
    requires Totalled(problem, problem.assignments, d) && t in d.teacher
    ensures t in problem.teachers && Demanded(problem, problem.assignments, OfTeacher(t))
    ensures d.teacher[t] == Demand(problem, problem.assignments, OfTeacher(t), WeeklyPeriods)
    ensures t in d.teacherDoubles && d.teacherDoubles[t] == Demand(problem, problem.assignments, OfTeacher(t), DoubleBlocks)
  {
    hide Demand;
    assert Demanded(problem, problem.assignments, On(TeacherAxis, t));
    var a :| a in problem.assignments && Bookable(problem, a) && Hits(OfTeacher(t), a);
  }

  lemma CohortEntry(problem: Problem, d: Totals, c: Id)
    requires Totalled(problem, problem.assignments, d) && c in d.cohort
    ensures c in problem.cohorts && Demanded(problem, problem.assignments, OfCohort(c))
    ensures d.cohort[c] == Demand(problem, problem.assignments, OfCohort(c), WeeklyPeriods)
    ensures c in d.cohortDoubles && d.cohortDoubles[c] == Demand(problem, problem.assignments, OfCohort(c), DoubleBlocks)
  {
    hide Demand;
    assert Demanded(problem, problem.assignments, On(CohortAxis, c));
    var a :| a in problem.assignments && Bookable(problem, a) && Hits(OfCohort(c), a);
  }

  method CheckTeacher(problem: Problem, periods: seq<Period>, d: Totals, t: Id, before: seq<Issue>) returns (issues: seq<Issue>)
    requires periods == UsablePeriods(problem) && Totalled(problem, problem.assignments, d) && t in d.teacher
    ensures forall i :: i in issues <==>
              i in before || (i.entity == t && i.code in {TeacherCapacity, TeacherAdjacency} && TeacherRaises(problem, t, i.code))
  {
    hide Totalled, WorkloadCap, Greedy, UsablePeriods, IsMostPairs, Demand, Demanded;
    TeacherEntry(problem, d, t);
    var teacher := problem.teachers[t];
    var available := TeacherCapacityOf(problem, periods, teacher);
    issues := Add(before, d.teacher[t] > available, Issue(TeacherCapacity, t));
    var pairs := AdjacentCapacity(periods, teacher.unavailable);
    issues := Add(issues, d.teacherDoubles[t] > pairs, Issue(TeacherAdjacency, t));
  }

  method CheckCohort(problem: Problem, periods: seq<Period>, d: Totals, c: Id, before: seq<Issue>) returns (issues: seq<Issue>)
    requires periods == UsablePeriods(problem) && Totalled(problem, problem.assignments, d) && c in d.cohort
    ensures forall i :: i in issues <==>
              i in before || (i.entity == c && i.code in {CohortCapacity, CohortAdjacency, CoverageMismatch} && CohortRaises(problem, c, i.code))
  {
    hide Totalled, AvailableCount, Greedy, UsablePeriods, IsMostPairs, Demand, Demanded;
    CohortEntry(problem, d, c);
    var cohort := problem.cohorts[c];
    var available := CountAvailable(periods, cohort.unavailable);
    issues := Add(before, d.cohort[c] > available, Issue(CohortCapacity, c));
    var pairs := AdjacentCapacity(periods, cohort.unavailable);
    issues := Add(issues, d.cohortDoubles[c] > pairs, Issue(CohortAdjacency, c));
    issues := Add(issues, problem.fullCoverage && d.cohort[c] != |periods|, Issue(CoverageMismatch, c));
  }

  /** `available += capacity` for every period the resource is free in. */
  method CountResource(periods: seq<Period>, unavailable: set<Id>, capacity: int) returns (available: int)
    ensures available == AvailableCount(periods, unavailable) * capacity
  {
    available := 0;
    for k := 0 to |periods|
      invariant available == AvailableCount(periods[..k], unavailable) * capacity
    {
      assert periods[..k + 1][..k] == periods[..k];
      var n := AvailableCount(periods[..k], unavailable);
      assert (n + 1) * capacity == n * capacity + capacity;
      if periods[k].id !in unavailable {
        available := available + capacity;
      }
    }
    assert periods[..|periods|] == periods;
  }

  lemma ResourceEntry(problem: Problem, d: Totals, r: Id)
    requires Totalled(problem, problem.assignments, d) && r in d.resource
    ensures Demanded(problem, problem.assignments, OfResource(r))
    ensures d.resource[r] == Demand(problem, problem.assignments, OfResource(r), WeeklyPeriods)
  {
    hide Demand, Demanded;
  }

  method CheckResource(problem: Problem, periods: seq<Period>, d: Totals, r: Id, before: seq<Issue>) returns (issues: seq<Issue>)
    requires periods == UsablePeriods(problem) && Totalled(problem, problem.assignments, d) && r in d.resource
    ensures forall i :: i in issues <==>
              i in before || (i.entity == r && i.code in {MissingResource, ResourceCapacity} && ResourceRaises(problem, r, i.code))
  {
    hide Demand, Demanded, AvailableCount, UsablePeriods, Totalled;
    ResourceEntry(problem, d, r);
    issues := before;
    if r !in problem.resources || problem.resources[r].workspace != problem.workspace {
      issues := Add(issues, true, Issue(MissingResource, r));
      return;
    }
    var capacity := if problem.resources[r].capacity <= 0 then 1 else problem.resources[r].capacity;
    var available := CountResource(periods, problem.resources[r].unavailable, capacity);
    issues := Add(issues, d.resource[r] > available, Issue(ResourceCapacity, r));
  }

  /** Every entry of the demand maps is checked, in whatever order the maps are walked. */
  method CheckTeachers(problem: Problem, periods: seq<Period>, d: Totals, before: seq<Issue>) returns (issues: seq<Issue>)
    requires periods == UsablePeriods(problem) && Totalled(problem, problem.assignments, d)
    ensures forall i :: i in issues <==> i in before || (i.code in {TeacherCapacity, TeacherAdjacency} && TeacherRaises(problem, i.entity, i.code))
  {
    issues := before;
    var ids := KeysInSomeOrder(d.teacher);
    assert forall t | Demanded(problem, problem.assignments, OfTeacher(t)) :: Demanded(problem, problem.assignments, On(TeacherAxis, t));
    assert forall t, code | TeacherRaises(problem, t, code) :: t in d.teacher;
    hide TeacherRaises, Totalled;
    for k := 0 to |ids|
      invariant forall i :: i in issues <==>
                  i in before || (i.entity in ids[..k] && i.code in {TeacherCapacity, TeacherAdjacency} && TeacherRaises(problem, i.entity, i.code))
    {
      assert ids[..k + 1] == ids[..k] + [ids[k]];
      issues := CheckTeacher(problem, periods, d, ids[k], issues);
    }
    assert ids[..|ids|] == ids;
  }

  method CheckCohorts(problem: Problem, periods: seq<Period>, d: Totals, before: seq<Issue>) returns (issues: seq<Issue>)
    requires periods == UsablePeriods(problem) && Totalled(problem, problem.assignments, d)
    ensures forall i :: i in issues <==>
              i in before || (i.code in {CohortCapacity, CohortAdjacency, CoverageMismatch} && CohortRaises(problem, i.entity, i.code))
  {
    issues := before;
    var ids := KeysInSomeOrder(d.cohort);
    assert forall c | Demanded(problem, problem.assignments, OfCohort(c)) :: Demanded(problem, problem.assignments, On(CohortAxis, c));
    assert forall c, code | CohortRaises(problem, c, code) :: c in d.cohort;
    hide CohortRaises, Totalled;
    for k := 0 to |ids|
      invariant forall i :: i in issues <==>
                  || i in before
                  || (i.entity in ids[..k] && i.code in {CohortCapacity, CohortAdjacency, CoverageMismatch} && CohortRaises(problem, i.entity, i.code))
    {
      assert ids[..k + 1] == ids[..k] + [ids[k]];
      issues := CheckCohort(problem, periods, d, ids[k], issues);
    }
    assert ids[..|ids|] == ids;
  }

  method CheckResources(problem: Problem, periods: seq<Period>, d: Totals, before: seq<Issue>) returns (issues: seq<Issue>)
    requires periods == UsablePeriods(problem) && Totalled(problem, problem.assignments, d)
    ensures forall i :: i in issues <==> i in before || (i.code in {MissingResource, ResourceCapacity} && ResourceRaises(problem, i.entity, i.code))
  {
    issues := before;
    var ids := KeysInSomeOrder(d.resource);
    assert forall r | Demanded(problem, problem.assignments, OfResource(r)) :: Demanded(problem, problem.assignments, On(ResourceAxis, r));
    assert forall r, code | ResourceRaises(problem, r, code) :: r in d.resource;
    hide ResourceRaises, Totalled;
    for k := 0 to |ids|
      invariant forall i :: i in issues <==>
                  i in before || (i.entity in ids[..k] && i.code in {MissingResource, ResourceCapacity} && ResourceRaises(problem, i.entity, i.code))
    {
      assert ids[..k + 1] == ids[..k] + [ids[k]];
      issues := CheckResource(problem, periods, d, ids[k], issues);
    }
    assert ids[..|ids|] == ids;
  }

  method TotalTeacherCapacity(problem: Problem, periods: seq<Period>) returns (capacity: int)
    requires periods == UsablePeriods(problem)
    ensures capacity == Capacities(problem, LocalTeachers(problem))
  {
    capacity := 0;
    var ids := KeysInSomeOrder(problem.teachers);
    ghost var done: set<Id> := {};
    hide WorkloadCap, UsablePeriods;
    for k := 0 to |ids|
      invariant done <= problem.teachers.Keys && capacity == Capacities(problem, done)
      invariant forall t :: t in done <==> t in ids[..k] && LocalTeacher(problem, t)
    {
      var t := ids[k];
      hide Capacities;
      assert ids[..k + 1] == ids[..k] + [t];
      if problem.teachers[t].workspace != problem.workspace {
        continue;
      }
      var one := TeacherCapacityOf(problem, periods, problem.teachers[t]);
      capacity := capacity + one;
      CapacitiesRemove(problem, done + {t}, t);
      assert done + {t} - {t} == done;
      done := done + {t};
    }
    assert ids[..|ids|] == ids;
    assert done == LocalTeachers(problem);
  }

  method CollectEligible(problem: Problem, per: Id) returns (edges: seq<Matching.Edge>)
    ensures edges == EligibleEdges(problem, problem.assignments, per)
  {
    edges := [];
    var list := problem.assignments;
    for k := 0 to |list|
      invariant edges == EligibleEdges(problem, list[..k], per)
    {
      assert list[..k + 1][..k] == list[..k];
      if Eligible(problem, list[k], per) {
        edges := edges + [Matching.Edge(list[k].teacher, list[k].cohort, list[k].id)];
      }
    }
    assert list[..|list|] == list;
  }

  /** `maximumEligibleCoverage`: how many cohorts can be taught at once in the period. */
  method MaximumEligibleCoverage(problem: Problem, per: Id) returns (size: nat)
    ensures exists choice :: IsDisjointChoice(EligibleEdges(problem, problem.assignments, per), choice) && |choice| == size
    ensures forall choice | IsDisjointChoice(EligibleEdges(problem, problem.assignments, per), choice) :: |choice| <= size
  {
    var edges := CollectEligible(problem, per);
    var largest := MaximumMatching(edges);
    size := |largest|;
  }

  method CountCohorts(problem: Problem, per: Id) returns (n: nat)
    ensures n == |CohortsRequired(problem, per)|
  {
    n := 0;
    var ids := KeysInSomeOrder(problem.cohorts);
    ghost var seen: set<Id> := {};
    for k := 0 to |ids|
      invariant n == |seen| && forall c :: c in seen <==> c in ids[..k] && c in CohortsRequired(problem, per)
    {
      assert ids[..k + 1] == ids[..k] + [ids[k]];
      if LocalCohort(problem, ids[k]) && !CohortBlocked(problem, ids[k], per) {
        n, seen := n + 1, seen + {ids[k]};
      }
    }
    assert ids[..|ids|] == ids;
    assert seen == CohortsRequired(problem, per);
  }

  method CountTeachers(problem: Problem, per: Id) returns (n: nat)
    ensures n == |TeachersAvailable(problem, per)|
  {
    n := 0;
    var ids := KeysInSomeOrder(problem.teachers);
    ghost var seen: set<Id> := {};
    for k := 0 to |ids|
      invariant n == |seen| && forall t :: t in seen <==> t in ids[..k] && t in TeachersAvailable(problem, per)
    {
      assert ids[..k + 1] == ids[..k] + [ids[k]];
      if LocalTeacher(problem, ids[k]) && !TeacherBlocked(problem, ids[k], per) {
        n, seen := n + 1, seen + {ids[k]};
      }
    }
    assert ids[..|ids|] == ids;
    assert seen == TeachersAvailable(problem, per);
  }

  method CheckPeriod(problem: Problem, per: Id, before: seq<Issue>) returns (issues: seq<Issue>)
    requires problem.fullCoverage
    ensures forall i :: i in issues <==>
              i in before || (i.entity == per && i.code in {TeacherShortage, EligibilityShortage} && PeriodRaises(problem, per, i.code))
  {
    hide TeachersAvailable, CohortsRequired, IsDisjointChoice, EligibleEdges;
    var cohortsRequired := CountCohorts(problem, per);
    var availableTeachers := CountTeachers(problem, per);
    issues := Add(before, availableTeachers < cohortsRequired, Issue(TeacherShortage, per));
    var eligibleCoverage := MaximumEligibleCoverage(problem, per);
    issues := Add(issues, eligibleCoverage < cohortsRequired, Issue(EligibilityShortage, per));
  }

  method CheckSimultaneous(problem: Problem, periods: seq<Period>, before: seq<Issue>) returns (issues: seq<Issue>)
    ensures forall i :: i in issues <==>
              || i in before
              || (i.code in {TeacherShortage, EligibilityShortage} && exists p | p in periods :: p.id == i.entity && PeriodRaises(problem, p.id, i.code))
  {
    issues := before;
    if !problem.fullCoverage {
      return;
    }
    hide PeriodRaises;
    for k := 0 to |periods|
      invariant forall i :: i in issues <==>
                  || i in before
                  || (i.code in {TeacherShortage, EligibilityShortage} && exists j | 0 <= j < k :: periods[j].id == i.entity && PeriodRaises(problem, periods[j].id, i.code))
    {
      issues := CheckPeriod(problem, periods[k].id, issues);
    }
  }

  lemma AssignmentCodes(problem: Problem, i: Issue)
    requires SomeAssignmentRaises(problem, problem.assignments, i)
    ensures i.code in {OutsideScope, MissingTeacher, MissingCohort, UnregisteredSubject, NotQualified, InvalidDoubles}
  {
  }

  /** The preflight of a timetable without audiences raises exactly the issues that apply. */
  method AnalyzeOrdinary(problem: Problem) returns (issues: seq<Issue>)
    ensures forall i :: i in issues <==> Raises(problem, i)
    ensures issues == [] <==> Feasible(problem)
  {
    hide TeacherRaises, CohortRaises, ResourceRaises, PeriodRaises, Demand, Capacities, LocalTeachers, UsablePeriods, SomeAssignmentRaises;
    issues := CollectIssues(problem);
    assert issues != [] ==> issues[0] in issues;
  }

  lemma TotalDemand(problem: Problem, d: Totals)
    requires Totalled(problem, problem.assignments, d)
    ensures d.total == Demand(problem, problem.assignments, OfAll, WeeklyPeriods)
  {
  }

  /** All checks, one after the other. */
  method CollectIssues(problem: Problem) returns (issues: seq<Issue>)
    ensures forall i :: i in issues <==> Raises(problem, i)
  {
    hide TeacherRaises, CohortRaises, ResourceRaises, PeriodRaises, Demand, Capacities, LocalTeachers, UsablePeriods, SomeAssignmentRaises;
    var d;
    var periods := ComputeUsablePeriods(problem);
    issues := Add([], problem.workspace == NO_ID || problem.year == NO_ID || problem.term == NO_ID, Issue(MissingScope, NO_ID));
    issues := Add(issues, periods == [], Issue(NoUsablePeriods, NO_ID));
    issues, d := CheckAssignments(problem, issues);
    TotalDemand(problem, d);
    hide Totalled;
    forall i | SomeAssignmentRaises(problem, problem.assignments, i)
      ensures i.code in {OutsideScope, MissingTeacher, MissingCohort, UnregisteredSubject, NotQualified, InvalidDoubles}
    {
      AssignmentCodes(problem, i);
    }
    issues := CheckTeachers(problem, periods, d, issues);
    issues := CheckCohorts(problem, periods, d, issues);
    var teacherCapacity := TotalTeacherCapacity(problem, periods);
    issues := Add(issues, d.total > teacherCapacity, Issue(TotalCapacity, NO_ID));
    issues := CheckResources(problem, periods, d, issues);
    issues := CheckSimultaneous(problem, periods, issues);
  }
}

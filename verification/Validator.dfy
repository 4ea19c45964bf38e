/** `ValidateSchedule`: recounts a finished schedule from its lessons alone. */
module Validator {
  import opened Model
  import opened Lessons

  datatype Invariant = CohortCoverage | TeacherBooking | CohortBooking | LearnerBooking | GroupBooking | BlockSimultaneity
                     | LearnerEligibility | AssignmentAuthority | CohortSubjectValidity | DemandSatisfaction | WorkloadLimits
                     | DoubleContiguity | LessonDuration | PeriodExclusion | AcademicBoundaries | ResourceExclusivity
                     | WorkspaceIsolation

  /** A failed invariant with the entity and the period it was seen at. */
  datatype Failure = Failure(check: Invariant, entity: Id, period: Id)

  /** The check of the blocks faults on a lesson tagged with a block that its group does not belong to. */
  datatype Outcome = Faulted | Reported(report: Report)

  datatype Report = Report(valid: bool, hard: nat, soft: nat, unscheduled: nat, failures: seq<Failure>)

  ghost predicate Raised(failures: seq<Failure>, inv: Invariant) {
    exists f | f in failures :: f.check == inv
  }

  // ----- what a single lesson must satisfy

  function PrimaryId(p: Placement): Id {
    if AssignmentIds(p) == [] then NO_ID else AssignmentIds(p)[0]
  }

  /** A lesson of no active assignment is reported and then left out of every count. */
  predicate Counted(problem: Problem, p: Placement) {
    var all := AssignmentById(problem.assignments);
    PrimaryId(p) in all && all[PrimaryId(p)].active
  }

  predicate AuthorizedCover(problem: Problem, p: Placement, id: Id) {
    var all := AssignmentById(problem.assignments);
    id in all && all[id].active && all[id].teacher == p.teacher && all[id].subject == p.subject
  }

  /** The lesson has no authority over the assignment, or leaves its cohort out. */
  predicate BadCover(problem: Problem, p: Placement, id: Id) {
    !(AuthorizedCover(problem, p, id) && AssignmentById(problem.assignments)[id].cohort in CohortIds(p))
  }

  predicate Unregistered(problem: Problem, p: Placement, id: Id) {
    AuthorizedCover(problem, p, id)
    && var a := AssignmentById(problem.assignments)[id]; (a.cohort, a.cohortSubject) !in problem.registrations
  }

  predicate QualifiedTeacher(problem: Problem, p: Placement) {
    p.teacher in problem.teachers
    && var t := problem.teachers[p.teacher];
       t.workspace == problem.workspace && (t.qualified == {} || p.subject in t.qualified)
  }

  predicate EligibleLearner(problem: Problem, p: Placement, id: Id) {
    id in problem.learners
    && var l := problem.learners[id];
       l.workspace == problem.workspace && l.active && l.cohort in CohortIds(p)
  }

  /** `second` follows `first` at once on the same day, and both are usable. */
  predicate Contiguous(problem: Problem, first: Id, second: Id) {
    var periods := PeriodById(problem.periods);
    && first in periods && second in periods
    && periods[first].day == periods[second].day && periods[second].index == periods[first].index + 1
    && Usable(periods[first]) && Usable(periods[second])
  }

  /** The period can be taught in, and the teacher and the cohorts of the lesson are free to meet. */
  predicate OpenPeriod(problem: Problem, p: Placement, per: Id) {
    var periods := PeriodById(problem.periods);
    && per in periods && Usable(periods[per])
    && !TeacherBlocked(problem, p.teacher, per)
    && forall c | c in CohortIds(p) :: !CohortBlocked(problem, c, per)
  }

  ghost predicate SomeBadCover(problem: Problem, p: Placement) {
    exists id | id in AssignmentIds(p) :: BadCover(problem, p, id)
  }

  ghost predicate SomeUnregistered(problem: Problem, p: Placement) {
    exists id | id in AssignmentIds(p) :: Unregistered(problem, p, id)
  }

  ghost predicate SomeForeignCohort(problem: Problem, p: Placement) {
    exists c | c in CohortIds(p) :: !LocalCohort(problem, c)
  }

  ghost predicate SomeIneligible(problem: Problem, p: Placement) {
    exists l | l in p.learners :: !EligibleLearner(problem, p, l)
  }

  ghost predicate SomeClosedPeriod(problem: Problem, p: Placement) {
    exists per | per in p.periods :: !OpenPeriod(problem, p, per)
  }

  ghost predicate SomeClosedResource(problem: Problem, p: Placement) {
    p.resource != NO_ID && exists per | per in p.periods :: !OpenResource(problem, p.resource, per)
  }

  predicate WellTimed(problem: Problem, p: Placement) {
    if p.double then |p.periods| == 2 && Contiguous(problem, p.periods[0], p.periods[1]) else |p.periods| == 1
  }

  ghost predicate Faulty(inv: Invariant, problem: Problem, p: Placement) {
    var all := AssignmentById(problem.assignments);
    if !Counted(problem, p) then inv == AssignmentAuthority
    else
      match inv
      case AssignmentAuthority =>
        || !QualifiedTeacher(problem, p)
        || SomeBadCover(problem, p)
      case CohortSubjectValidity => SomeUnregistered(problem, p)
      case WorkspaceIsolation =>
        || p.workspace != problem.workspace || all[PrimaryId(p)].workspace != problem.workspace
        || SomeForeignCohort(problem, p)
      case AcademicBoundaries =>
        || p.year != problem.year || p.term != problem.term
        || all[PrimaryId(p)].year != problem.year || all[PrimaryId(p)].term != problem.term
      case LearnerEligibility => SomeIneligible(problem, p)
      case DoubleContiguity => p.double && !WellTimed(problem, p)
      case LessonDuration => !p.double && !WellTimed(problem, p)
      case PeriodExclusion => SomeClosedPeriod(problem, p)
      case ResourceExclusivity => SomeClosedResource(problem, p)
      case _ => false
  }

  // ----- what the schedule as a whole must satisfy

  function CountedOnly(problem: Problem, ps: seq<Placement>): seq<Placement> {
    if ps == [] then []
    else CountedOnly(problem, ps[..|ps| - 1]) + if Counted(problem, ps[|ps| - 1]) then [ps[|ps| - 1]] else []
  }

  predicate Mandated(problem: Problem, a: Assignment) {
    Schedulable(problem, a) && a.mandatory
  }

  /** The periods of a mandatory assignment that are missing. */
  function Missing(problem: Problem, ps: seq<Placement>, a: Assignment): nat {
    if Mandated(problem, a) && Credit(ps, a.id) < a.weekly then a.weekly - Credit(ps, a.id) else 0
  }

  function Shortfall(problem: Problem, list: seq<Assignment>, ps: seq<Placement>): nat {
    if list == [] then 0 else Shortfall(problem, list[..|list| - 1], ps) + Missing(problem, ps, list[|list| - 1])
  }

  /** The periods in which a member of the block runs. */
  ghost function GroupPeriods(ps: seq<Placement>, block: Id, group: Id): set<Id> {
    set p, per | p in ps && p.block == block && p.group == group && group != NO_ID && per in p.periods :: per
  }

  function CohortUnavailable(problem: Problem, cohort: Id): set<Id> {
    if cohort in problem.cohorts then problem.cohorts[cohort].unavailable else {}
  }

  /** One covered entity: a learner or a cohort with one lesson in every mandatory period it is available for. */
  ghost predicate CoveredOne(counter: multiset<(Id, Id)>, periods: seq<Period>, entity: Id, unavailable: set<Id>) {
    forall period | period in periods && period.mandatory && period.id !in unavailable :: counter[(entity, period.id)] == 1
  }

  /** Full coverage: of every learner when there are learners, otherwise of every cohort. */
  ghost predicate Covered(problem: Problem, ps: seq<Placement>) {
    if problem.learners != map[] then
      forall l | LocalLearner(problem, l) ::
        CoveredOne(Bookings(LearnerUse, ps), UsablePeriods(problem), l, CohortUnavailable(problem, problem.learners[l].cohort))
    else
      forall c | LocalCohort(problem, c) ::
        CoveredOne(Bookings(CohortUse, ps), UsablePeriods(problem), c, CohortUnavailable(problem, c))
  }

  predicate DemandMet(problem: Problem, ps: seq<Placement>, a: Assignment) {
    Mandated(problem, a) ==> Credit(ps, a.id) == a.weekly
  }

  ghost predicate SomeDemandUnmet(problem: Problem, list: seq<Assignment>, ps: seq<Placement>) {
    exists a | a in list :: !DemandMet(problem, ps, a)
  }

  predicate Overworked(problem: Problem, ps: seq<Placement>, t: Id)
    requires t in problem.teachers
  {
    TeacherLoad(ps, t) > WorkloadCap(problem, problem.teachers[t])
  }

  ghost predicate SomeOverworked(problem: Problem, ps: seq<Placement>) {
    exists t | t in problem.teachers :: Overworked(problem, ps, t)
  }

  ghost predicate Overbooked(counter: multiset<(Id, Id)>, capacity: Id -> int) {
    exists x | x in counter :: counter[x] > capacity(x.0)
  }

  /** The members of the block run in the same periods. */
  ghost predicate InStep(ps: seq<Placement>, b: Block) {
    forall g | g in b.groups :: GroupPeriods(ps, b.id, g) == GroupPeriods(ps, b.id, b.groups[0])
  }

  ghost predicate SomeBlockBroken(problem: Problem, ps: seq<Placement>) {
    exists b | b in problem.blocks && ActiveBlock(problem, b) :: !InStep(ps, b)
  }

  ghost predicate Overall(inv: Invariant, problem: Problem, all: seq<Placement>, ps: seq<Placement>) {
    match inv
    case TeacherBooking => !AtMostOnce(Bookings(TeacherUse, ps))
    case CohortBooking => !AtMostOnce(Bookings(CohortUse, ps))
    case LearnerBooking => !AtMostOnce(Bookings(LearnerUse, ps))
    case GroupBooking => !AtMostOnce(Bookings(GroupUse, ps))
    case ResourceExclusivity => Overbooked(Bookings(ResourceUse, ps), (r: Id) => Capacity(problem, r))
    case DemandSatisfaction => SomeDemandUnmet(problem, problem.assignments, ps)
    case WorkloadLimits => SomeOverworked(problem, ps)
    case BlockSimultaneity => SomeBlockBroken(problem, all)
    case CohortCoverage => problem.fullCoverage && !Covered(problem, ps)
    case _ => false
  }

  ghost predicate SomeFaulty(inv: Invariant, problem: Problem, ps: seq<Placement>) {
    exists p | p in ps :: Faulty(inv, problem, p)
  }

  /** The schedule breaks the invariant: in one lesson, or in the counts over the lessons that are counted. */
  ghost predicate Violates(inv: Invariant, problem: Problem, ps: seq<Placement>) {
    SomeFaulty(inv, problem, ps) || Overall(inv, problem, ps, CountedOnly(problem, ps))
  }

  // ----- how many failures there are

  /** At how many places of the sequence the test holds. */
  ghost function Hits<T(!new)>(s: seq<T>, test: T -> bool): nat {
    |Places(s, test)|
  }

  ghost function Places<T(!new)>(s: seq<T>, test: T -> bool): set<nat> {
    set i: nat | i < |s| && test(s[i])
  }

  lemma HitsMore<T(!new)>(s: seq<T>, x: T, test: T -> bool)
    ensures Hits(s + [x], test) == Hits(s, test) + if test(x) then 1 else 0
  {
    var before, after, n := Places(s, test), Places(s + [x], test), |s|;
    forall i
      ensures i in after <==> i in before || (i == n && test(x))
    {
    }
    assert after == before + if test(x) then {n} else {};
  }

  lemma HitsNext<T(!new)>(s: seq<T>, k: nat, test: T -> bool)
    requires k < |s|
    ensures Hits(s[..k + 1], test) == Hits(s[..k], test) + if test(s[k]) then 1 else 0
  {
    assert s[..k + 1] == s[..k] + [s[k]];
    HitsMore(s[..k], s[k], test);
  }

  lemma NoHits<T(!new)>(s: seq<T>, test: T -> bool)
    ensures Hits(s[..0], test) == 0 && s[..|s|] == s
  {
    assert Places(s[..0], test) == {};
  }

  /** In a sequence without repetitions places are elements. */
  lemma {:induction false} HitsAreElements(s: seq<Id>, test: Id -> bool)
    requires Distinct(s)
    ensures Hits(s, test) == |set x | x in s && test(x)|
  {
    if s == [] {
      assert (set x | x in s && test(x)) == {};
    } else {
      var rest, last := s[..|s| - 1], s[|s| - 1];
      assert s == rest + [last];
      HitsAreElements(rest, test);
      HitsMore(rest, last, test);
      assert last !in rest;
      hide Hits, Distinct;
      var before, after := set x | x in rest && test(x), set x | x in s && test(x);
      if test(last) {
        assert after == before + {last};
      } else {
        assert after == before;
      }
    }
  }

  ghost function BadCovers(problem: Problem, p: Placement): Id -> bool {
    (id: Id) => BadCover(problem, p, id)
  }

  ghost function UnregisteredCovers(problem: Problem, p: Placement): Id -> bool {
    (id: Id) => Unregistered(problem, p, id)
  }

  ghost function ForeignCohorts(problem: Problem): Id -> bool {
    (c: Id) => !LocalCohort(problem, c)
  }

  ghost function IneligibleLearners(problem: Problem, p: Placement): Id -> bool {
    (l: Id) => !EligibleLearner(problem, p, l)
  }

  ghost function ClosedPeriods(problem: Problem, p: Placement): Id -> bool {
    (per: Id) => !OpenPeriod(problem, p, per)
  }

  ghost function ClosedResources(problem: Problem, p: Placement): Id -> bool {
    (per: Id) => p.resource != NO_ID && !OpenResource(problem, p.resource, per)
  }

  ghost function One(failed: bool): nat {
    if failed then 1 else 0
  }

  /** The failures of one lesson: one for each cover, cohort, learner and period that is wrong, and one each for its workspace, its term, its
      teacher and its length. */
  ghost function LessonFaults(problem: Problem, p: Placement): nat {
    if !Counted(problem, p) then 1
    else ScopeFaults(problem, p) + AudienceFaults(problem, p) + One(!WellTimed(problem, p)) + PeriodFaults(problem, p)
  }

  ghost function ScopeFaults(problem: Problem, p: Placement): nat
    requires Counted(problem, p)
  {
    var a := AssignmentById(problem.assignments)[PrimaryId(p)];
    Hits(AssignmentIds(p), BadCovers(problem, p)) + Hits(AssignmentIds(p), UnregisteredCovers(problem, p))
    + One(p.workspace != problem.workspace || a.workspace != problem.workspace)
    + One(p.year != problem.year || p.term != problem.term || a.year != problem.year || a.term != problem.term)
    + One(!QualifiedTeacher(problem, p))
  }

  ghost function AudienceFaults(problem: Problem, p: Placement): nat {
    Hits(CohortIds(p), ForeignCohorts(problem)) + Hits(p.learners, IneligibleLearners(problem, p))
  }

  ghost function PeriodFaults(problem: Problem, p: Placement): nat {
    Hits(p.periods, ClosedPeriods(problem, p)) + Hits(p.periods, ClosedResources(problem, p))
  }

  ghost function AllLessonFaults(problem: Problem, ps: seq<Placement>): nat {
    if ps == [] then 0 else AllLessonFaults(problem, ps[..|ps| - 1]) + LessonFaults(problem, ps[|ps| - 1])
  }

  /** The cells that are used more often than the capacity allows. */
  ghost function Excess(counter: multiset<(Id, Id)>, capacity: Id -> int): set<(Id, Id)> {
    set x | x in counter && counter[x] > capacity(x.0)
  }

  ghost function UnmetDemands(problem: Problem, ps: seq<Placement>): Assignment -> bool {
    (a: Assignment) => !DemandMet(problem, ps, a)
  }

  ghost function OverworkedTeachers(problem: Problem, ps: seq<Placement>): Id -> bool {
    (t: Id) => t in problem.teachers && Overworked(problem, ps, t)
  }

  /** The groups of the block that do not run when the first one does. */
  ghost function OutOfStep(ps: seq<Placement>, b: Block): Id -> bool {
    (g: Id) => b.groups != [] && GroupPeriods(ps, b.id, g) != GroupPeriods(ps, b.id, b.groups[0])
  }

  ghost function AllOutOfStep(problem: Problem, blocks: seq<Block>, ps: seq<Placement>): nat {
    if blocks == [] then 0
    else
      var b := blocks[|blocks| - 1];
      AllOutOfStep(problem, blocks[..|blocks| - 1], ps) + if ActiveBlock(problem, b) then Hits(b.groups, OutOfStep(ps, b)) else 0
  }

  /** The entity must be covered in the period, and is not or is twice. */
  predicate Uncovered(counter: multiset<(Id, Id)>, entity: Id, unavailable: set<Id>, period: Period) {
    period.mandatory && period.id !in unavailable && counter[(entity, period.id)] != 1
  }

  ghost function UncoveredPeriods(counter: multiset<(Id, Id)>, entity: Id, unavailable: set<Id>): Period -> bool {
    (period: Period) => Uncovered(counter, entity, unavailable, period)
  }

  predicate MustBeCovered(problem: Problem, id: Id, learners: bool) {
    if learners then LocalLearner(problem, id) else LocalCohort(problem, id)
  }

  function AwayWhen(problem: Problem, id: Id, learners: bool): set<Id>
    requires MustBeCovered(problem, id, learners)
  {
    CohortUnavailable(problem, if learners then problem.learners[id].cohort else id)
  }

  /** The entities, with the places of the week in which they must be covered and are not. */
  ghost function Gaps(problem: Problem, counter: multiset<(Id, Id)>, ids: set<Id>, learners: bool): set<(Id, nat)> {
    set id, k: nat | id in ids && MustBeCovered(problem, id, learners) && k < |UsablePeriods(problem)|
                && Uncovered(counter, id, AwayWhen(problem, id, learners), UsablePeriods(problem)[k]) :: (id, k)
  }

  ghost function CoverageGaps(problem: Problem, ps: seq<Placement>): set<(Id, nat)> {
    if problem.learners != map[] then Gaps(problem, Bookings(LearnerUse, ps), problem.learners.Keys, true)
    else Gaps(problem, Bookings(CohortUse, ps), problem.cohorts.Keys, false)
  }

  /** The failures of the occupancy counters. */
  ghost function BookingFaults(problem: Problem, ps: seq<Placement>): nat {
    |Twice(Bookings(TeacherUse, ps))| + |Twice(Bookings(CohortUse, ps))| + |Twice(Bookings(LearnerUse, ps))| + |Twice(Bookings(GroupUse, ps))|
    + |Excess(Bookings(ResourceUse, ps), Capacities(problem))|
  }

  function Capacities(problem: Problem): Id -> int {
    (id: Id) => Capacity(problem, id)
  }

  /** The cells that are used more than once. */
  ghost function Twice(counter: multiset<(Id, Id)>): set<(Id, Id)> {
    set x | x in counter && counter[x] > 1
  }

  lemma BookingFaultsAre(problem: Problem, ps: seq<Placement>)
    ensures BookingFaults(problem, ps) ==
              |Twice(Bookings(TeacherUse, ps))| + |Twice(Bookings(CohortUse, ps))| + |Twice(Bookings(LearnerUse, ps))| + |Twice(Bookings(GroupUse, ps))|
              + |Excess(Bookings(ResourceUse, ps), Capacities(problem))|
    ensures Overbooked(Bookings(ResourceUse, ps), Capacities(problem)) <==> Overbooked(Bookings(ResourceUse, ps), (id: Id) => Capacity(problem, id))
  {
    hide Bookings, Twice, Excess, Capacity;
  }

  /** The failures of the schedule as a whole. */
  ghost function CountFaults(problem: Problem, all: seq<Placement>, ps: seq<Placement>): nat {
    BookingFaults(problem, ps) + Hits(problem.assignments, UnmetDemands(problem, ps))
    + |set t | t in problem.teachers && Overworked(problem, ps, t)| + AllOutOfStep(problem, problem.blocks, all)
    + if problem.fullCoverage then |CoverageGaps(problem, ps)| else 0
  }

  /** How many failures the schedule has. */
  ghost function HardFaults(problem: Problem, ps: seq<Placement>): nat {
    AllLessonFaults(problem, ps) + CountFaults(problem, ps, CountedOnly(problem, ps))
  }

  // ----- checking one lesson

  /** Adds a failure when the test fails. */
  method Note(failures: seq<Failure>, failed: bool, check: Invariant, entity: Id, period: Id) returns (longer: seq<Failure>)
    ensures forall inv :: Raised(longer, inv) <==> Raised(failures, inv) || (failed && inv == check)
    ensures |longer| == |failures| + if failed then 1 else 0
  {
    longer := failures;
    if failed {
      longer := failures + [Failure(check, entity, period)];
      assert longer[|failures|].check == check;
      assert forall f | f in failures :: f in longer;
    }
  }

  method CheckCovers(problem: Problem, p: Placement, all: map<Id, Assignment>, before: seq<Failure>) returns (failures: seq<Failure>)
    requires all == AssignmentById(problem.assignments)
    ensures forall inv :: Raised(failures, inv) <==>
              || Raised(before, inv)
              || (inv == AssignmentAuthority && SomeBadCover(problem, p))
              || (inv == CohortSubjectValidity && SomeUnregistered(problem, p))
    ensures |failures| == |before| + Hits(AssignmentIds(p), BadCovers(problem, p)) + Hits(AssignmentIds(p), UnregisteredCovers(problem, p))
  {
    failures := before;
    var ids := AssignmentIds(p);
    hide AssignmentIds, CohortIds, AssignmentById, Hits;
    NoHits(ids, BadCovers(problem, p));
    NoHits(ids, UnregisteredCovers(problem, p));
    ghost var bad, unregistered := false, false;
    for k := 0 to |ids|
      invariant bad <==> exists j | 0 <= j < k :: BadCover(problem, p, ids[j])
      invariant unregistered <==> exists j | 0 <= j < k :: Unregistered(problem, p, ids[j])
      invariant forall inv :: Raised(failures, inv) <==>
                  || Raised(before, inv)
                  || (inv == AssignmentAuthority && bad)
                  || (inv == CohortSubjectValidity && unregistered)
      invariant |failures| == |before| + Hits(ids[..k], BadCovers(problem, p)) + Hits(ids[..k], UnregisteredCovers(problem, p))
    {
      var id := ids[k];
      HitsNext(ids, k, BadCovers(problem, p));
      HitsNext(ids, k, UnregisteredCovers(problem, p));
      bad := bad || BadCover(problem, p, id);
      unregistered := unregistered || Unregistered(problem, p, id);
      if !AuthorizedCover(problem, p, id) {
        failures := Note(failures, true, AssignmentAuthority, id, NO_ID);
        continue;
      }
      failures := Note(failures, all[id].cohort !in CohortIds(p), AssignmentAuthority, id, NO_ID);
      failures := Note(failures, (all[id].cohort, all[id].cohortSubject) !in problem.registrations, CohortSubjectValidity, all[id].cohort, NO_ID);
    }
  }

  method CheckAudience(problem: Problem, p: Placement, before: seq<Failure>) returns (failures: seq<Failure>)
    ensures forall inv :: Raised(failures, inv) <==>
              || Raised(before, inv)
              || (inv == WorkspaceIsolation && SomeForeignCohort(problem, p))
              || (inv == LearnerEligibility && SomeIneligible(problem, p))
    ensures |failures| == |before| + AudienceFaults(problem, p)
  {
    failures := before;
    var cohorts := CohortIds(p);
    hide LocalCohort, EligibleLearner, CohortIds, Hits;
    NoHits(cohorts, ForeignCohorts(problem));
    NoHits(p.learners, IneligibleLearners(problem, p));
    ghost var foreign, ineligible := false, false;
    for k := 0 to |cohorts|
      invariant foreign <==> exists j | 0 <= j < k :: !LocalCohort(problem, cohorts[j])
      invariant forall inv :: Raised(failures, inv) <==> Raised(before, inv) || (inv == WorkspaceIsolation && foreign)
      invariant |failures| == |before| + Hits(cohorts[..k], ForeignCohorts(problem))
    {
      HitsNext(cohorts, k, ForeignCohorts(problem));
      foreign := foreign || !LocalCohort(problem, cohorts[k]);
      failures := Note(failures, !LocalCohort(problem, cohorts[k]), WorkspaceIsolation, cohorts[k], NO_ID);
    }
    for k := 0 to |p.learners|
      invariant ineligible <==> exists j | 0 <= j < k :: !EligibleLearner(problem, p, p.learners[j])
      invariant forall inv :: Raised(failures, inv) <==>
                  Raised(before, inv) || (inv == WorkspaceIsolation && foreign) || (inv == LearnerEligibility && ineligible)
      invariant |failures| == |before| + Hits(cohorts, ForeignCohorts(problem)) + Hits(p.learners[..k], IneligibleLearners(problem, p))
    {
      HitsNext(p.learners, k, IneligibleLearners(problem, p));
      ineligible := ineligible || !EligibleLearner(problem, p, p.learners[k]);
      failures := Note(failures, !EligibleLearner(problem, p, p.learners[k]), LearnerEligibility, p.learners[k], NO_ID);
    }
  }

  method CheckDuration(problem: Problem, p: Placement, before: seq<Failure>) returns (failures: seq<Failure>)
    ensures forall inv :: Raised(failures, inv) <==>
              || Raised(before, inv)
              || (inv == DoubleContiguity && p.double && !WellTimed(problem, p))
              || (inv == LessonDuration && !p.double && !WellTimed(problem, p))
    ensures |failures| == |before| + One(!WellTimed(problem, p))
  {
    if p.double {
      if |p.periods| != 2 {
        failures := Note(before, true, DoubleContiguity, p.assignment, NO_ID);
      } else {
        failures := Note(before, !Contiguous(problem, p.periods[0], p.periods[1]), DoubleContiguity, p.assignment, p.periods[0]);
      }
    } else {
      failures := Note(before, |p.periods| != 1, LessonDuration, p.assignment, NO_ID);
    }
  }

  method CheckPeriods(problem: Problem, p: Placement, before: seq<Failure>) returns (failures: seq<Failure>)
    ensures forall inv :: Raised(failures, inv) <==>
              || Raised(before, inv)
              || (inv == PeriodExclusion && SomeClosedPeriod(problem, p))
              || (inv == ResourceExclusivity && SomeClosedResource(problem, p))
    ensures |failures| == |before| + PeriodFaults(problem, p)
  {
    failures := before;
    hide OpenPeriod, OpenResource, Hits;
    NoHits(p.periods, ClosedPeriods(problem, p));
    NoHits(p.periods, ClosedResources(problem, p));
    ghost var excluded, taken := false, false;
    for k := 0 to |p.periods|
      invariant excluded <==> exists j | 0 <= j < k :: !OpenPeriod(problem, p, p.periods[j])
      invariant taken <==> p.resource != NO_ID && exists j | 0 <= j < k :: !OpenResource(problem, p.resource, p.periods[j])
      invariant forall inv :: Raised(failures, inv) <==>
                  Raised(before, inv) || (inv == PeriodExclusion && excluded) || (inv == ResourceExclusivity && taken)
      invariant |failures| == |before| + Hits(p.periods[..k], ClosedPeriods(problem, p)) + Hits(p.periods[..k], ClosedResources(problem, p))
    {
      HitsNext(p.periods, k, ClosedPeriods(problem, p));
      HitsNext(p.periods, k, ClosedResources(problem, p));
      var per := p.periods[k];
      excluded := excluded || !OpenPeriod(problem, p, per);
      taken := taken || (p.resource != NO_ID && !OpenResource(problem, p.resource, per));
      failures := Note(failures, !OpenPeriod(problem, p, per), PeriodExclusion, p.assignment, per);
      failures := Note(failures, p.resource != NO_ID && !OpenResource(problem, p.resource, per), ResourceExclusivity, p.resource, per);
    }
  }

  /** All checks on a single lesson, in the order of the source. */
  method CheckLesson(problem: Problem, p: Placement, all: map<Id, Assignment>, before: seq<Failure>) returns (failures: seq<Failure>)
    requires all == AssignmentById(problem.assignments)
    ensures forall inv :: Raised(failures, inv) <==> Raised(before, inv) || Faulty(inv, problem, p)
    ensures |failures| == |before| + LessonFaults(problem, p)
  {
    hide ScopeFaults, AudienceFaults, PeriodFaults;
    if Counted(problem, p) {
      failures := CheckCounted(problem, p, all, before);
    } else {
      failures := Note(before, true, AssignmentAuthority, PrimaryId(p), NO_ID);
    }
  }

  method CheckCounted(problem: Problem, p: Placement, all: map<Id, Assignment>, before: seq<Failure>) returns (failures: seq<Failure>)
    requires all == AssignmentById(problem.assignments) && Counted(problem, p)
    ensures forall inv :: Raised(failures, inv) <==> Raised(before, inv) || Faulty(inv, problem, p)
    ensures |failures| == |before| + LessonFaults(problem, p)
  {
    hide ScopeFaults, AudienceFaults, PeriodFaults, One, SomeBadCover, SomeUnregistered, SomeForeignCohort, SomeIneligible, SomeClosedPeriod, SomeClosedResource, WellTimed,
         QualifiedTeacher, PrimaryId, Raised, AssignmentById;
    failures := CheckScope(problem, p, all, before);
    failures := CheckAudience(problem, p, failures);
    failures := CheckDuration(problem, p, failures);
    failures := CheckPeriods(problem, p, failures);
  }

  method CheckScope(problem: Problem, p: Placement, all: map<Id, Assignment>, before: seq<Failure>) returns (failures: seq<Failure>)
    requires all == AssignmentById(problem.assignments) && Counted(problem, p)
    ensures forall inv :: Raised(failures, inv) <==>
              || Raised(before, inv)
              || (inv == AssignmentAuthority && (SomeBadCover(problem, p) || !QualifiedTeacher(problem, p)))
              || (inv == CohortSubjectValidity && SomeUnregistered(problem, p))
              || (inv == WorkspaceIsolation && (p.workspace != problem.workspace || all[PrimaryId(p)].workspace != problem.workspace))
              || (inv == AcademicBoundaries && (p.year != problem.year || p.term != problem.term
                                                || all[PrimaryId(p)].year != problem.year || all[PrimaryId(p)].term != problem.term))
    ensures |failures| == |before| + ScopeFaults(problem, p)
  {
    hide SomeBadCover, SomeUnregistered, QualifiedTeacher, PrimaryId, Raised, AssignmentById, Hits, BadCovers, UnregisteredCovers;
    var a := all[PrimaryId(p)];
    failures := CheckCovers(problem, p, all, before);
    failures := Note(failures, p.workspace != problem.workspace || a.workspace != problem.workspace, WorkspaceIsolation, p.assignment, NO_ID);
    failures := Note(failures, p.year != problem.year || p.term != problem.term || a.year != problem.year || a.term != problem.term,
                     AcademicBoundaries, p.assignment, NO_ID);
    failures := Note(failures, !QualifiedTeacher(problem, p), AssignmentAuthority, p.teacher, NO_ID);
  }

  // ----- counting

  /** The validator's counters; a multiset is a map from keys to how often they were seen. */
  datatype Counters = Counters(teachers: multiset<(Id, Id)>, cohorts: multiset<(Id, Id)>, learners: multiset<(Id, Id)>,
                               groups: multiset<(Id, Id)>, resources: multiset<(Id, Id)>, credit: multiset<Id>, load: multiset<Id>)

  ghost predicate Counts(c: Counters, ps: seq<Placement>) {
    && (forall kind: Kind :: Tally(c, kind) == Bookings(kind, ps))
    && (forall id :: c.credit[id] == Credit(ps, id))
    && (forall t :: c.load[t] == TeacherLoad(ps, t))
  }

  method Increment(counter: multiset<(Id, Id)>, keys: seq<Id>, per: Id) returns (more: multiset<(Id, Id)>)
    ensures more == counter + At(keys, per)
  {
    more := counter;
    for k := 0 to |keys|
      invariant more == counter + At(keys[..k], per)
    {
      assert keys[..k + 1][..k] == keys[..k];
      more := more + multiset{(keys[k], per)};
    }
    assert keys[..|keys|] == keys;
  }

  method IncrementCredit(counter: multiset<Id>, ids: seq<Id>) returns (more: multiset<Id>)
    ensures more == counter + multiset(ids)
  {
    more := counter;
    for k := 0 to |ids|
      invariant more == counter + multiset(ids[..k])
    {
      assert ids[..k + 1] == ids[..k] + [ids[k]];
      more := more + multiset{ids[k]};
    }
    assert ids[..|ids|] == ids;
  }

  lemma DistinctCount(ids: seq<Id>, id: Id)
    requires Distinct(ids)
    ensures multiset(ids)[id] == if id in ids then 1 else 0
  {
    DistinctMultiset(ids);
    assert id in ids <==> id in multiset(ids);
  }

  ghost function Tally(c: Counters, kind: Kind): multiset<(Id, Id)> {
    match kind
    case TeacherUse => c.teachers
    case CohortUse => c.cohorts
    case LearnerUse => c.learners
    case GroupUse => c.groups
    case ResourceUse => c.resources
  }

  /** `r` has seen the first `k` periods of the lesson on top of what `c` had seen. */
  ghost predicate Advanced(c: Counters, r: Counters, p: Placement, k: nat)
    requires k <= |p.periods|
  {
    && (forall kind: Kind :: Tally(r, kind) == Tally(c, kind) + Pairs(Keys(kind, p), p.periods[..k]))
    && (forall id :: r.credit[id] == c.credit[id] + if id in AssignmentIds(p) then k else 0)
    && (forall t :: r.load[t] == c.load[t] + if p.teacher == t then k else 0)
  }

  /** Enters one period of a lesson into the counters. */
  method CountPeriod(c: Counters, p: Placement, per: Id) returns (r: Counters)
    ensures forall kind: Kind :: Tally(r, kind) == Tally(c, kind) + At(Keys(kind, p), per)
    ensures r.credit == c.credit + multiset(AssignmentIds(p))
    ensures r.load == c.load + multiset{p.teacher}
  {
    hide CohortIds, AssignmentIds, At;
    var teachers := Increment(c.teachers, Keys(TeacherUse, p), per);
    var groups := Increment(c.groups, Keys(GroupUse, p), per);
    var cohorts := Increment(c.cohorts, Keys(CohortUse, p), per);
    var learners := Increment(c.learners, Keys(LearnerUse, p), per);
    var resources := Increment(c.resources, Keys(ResourceUse, p), per);
    var credit := IncrementCredit(c.credit, AssignmentIds(p));
    r := Counters(teachers, cohorts, learners, groups, resources, credit, c.load + multiset{p.teacher});
    forall kind: Kind
      ensures Tally(r, kind) == Tally(c, kind) + At(Keys(kind, p), per)
    {
      match kind {
        case TeacherUse =>
        case CohortUse =>
        case LearnerUse =>
        case GroupUse =>
        case ResourceUse =>
      }
    }
  }

  lemma AdvancedStep(c: Counters, before: Counters, after: Counters, p: Placement, k: nat)
    requires k < |p.periods| && Advanced(c, before, p, k)
    requires forall kind: Kind :: Tally(after, kind) == Tally(before, kind) + At(Keys(kind, p), p.periods[k])
    requires after.credit == before.credit + multiset(AssignmentIds(p))
    requires after.load == before.load + multiset{p.teacher}
    ensures Advanced(c, after, p, k + 1)
  {
    hide Keys, AssignmentIds, Tally;
    assert p.periods[..k + 1][..k] == p.periods[..k];
    forall kind: Kind
      ensures Tally(after, kind) == Tally(c, kind) + Pairs(Keys(kind, p), p.periods[..k + 1])
    {
    }
    forall id
      ensures after.credit[id] == c.credit[id] + if id in AssignmentIds(p) then k + 1 else 0
    {
      DistinctCount(AssignmentIds(p), id);
    }
  }

  method CountLesson(c: Counters, p: Placement, ghost ps: seq<Placement>) returns (r: Counters)
    requires Counts(c, ps)
    ensures Counts(r, ps + [p])
  {
    r := c;
    for k := 0 to |p.periods|
      invariant Advanced(c, r, p, k)
    {
      var next := CountPeriod(r, p, p.periods[k]);
      AdvancedStep(c, r, next, p, k);
      r := next;
    }
    assert p.periods[..|p.periods|] == p.periods;
    forall kind: Kind ensures Tally(r, kind) == Bookings(kind, ps + [p]) {
      BookingsAppend(kind, ps, p);
    }
    forall id ensures r.credit[id] == Credit(ps + [p], id) {
      CreditAppend(ps, p, id);
    }
    forall t ensures r.load[t] == TeacherLoad(ps + [p], t) {
      TeacherLoadAppend(ps, p, t);
    }
  }

  // ----- checking the counts

  method CheckOccupancy(counter: multiset<(Id, Id)>, capacity: Id -> int, check: Invariant, before: seq<Failure>) returns (failures: seq<Failure>)
    ensures forall inv :: Raised(failures, inv) <==> Raised(before, inv) || (inv == check && Overbooked(counter, capacity))
    ensures |failures| == |before| + |Excess(counter, capacity)|
  {
    failures := before;
    var rest := set x | x in counter;
    ghost var exceeded := false;
    ghost var found: set<(Id, Id)> := {};
    while rest != {}
      invariant forall x | x in rest :: x in counter
      invariant exceeded <==> exists x | x in counter :: x !in rest && counter[x] > capacity(x.0)
      invariant forall inv :: Raised(failures, inv) <==> Raised(before, inv) || (inv == check && exceeded)
      invariant |failures| == |before| + |found| && found !! rest
      invariant forall x :: x in found <==> x in counter && x !in rest && counter[x] > capacity(x.0)
    {
      var x :| x in rest;
      rest := rest - {x};
      if counter[x] > capacity(x.0) {
        found := found + {x};
      }
      exceeded := exceeded || counter[x] > capacity(x.0);
      failures := Note(failures, counter[x] > capacity(x.0), check, x.0, x.1);
    }
    assert found == Excess(counter, capacity);
  }

  method CheckDemand(problem: Problem, credit: multiset<Id>, ghost ps: seq<Placement>, before: seq<Failure>)
    returns (failures: seq<Failure>, unscheduled: nat)
    requires forall id :: credit[id] == Credit(ps, id)
    ensures forall inv :: Raised(failures, inv) <==>
              Raised(before, inv) || (inv == DemandSatisfaction && SomeDemandUnmet(problem, problem.assignments, ps))
    ensures unscheduled == Shortfall(problem, problem.assignments, ps)
    ensures |failures| == |before| + Hits(problem.assignments, UnmetDemands(problem, ps))
  {
    failures, unscheduled := before, 0;
    NoHits(problem.assignments, UnmetDemands(problem, ps));
    assert Shortfall(problem, problem.assignments[..0], ps) == 0 && !SomeDemandUnmet(problem, problem.assignments[..0], ps);
    hide Credit, Raised, DemandMet, Shortfall, Missing, SomeDemandUnmet, Hits;
    var list := problem.assignments;
    for k := 0 to |list|
      invariant forall inv :: Raised(failures, inv) <==>
                  Raised(before, inv) || (inv == DemandSatisfaction && SomeDemandUnmet(problem, list[..k], ps))
      invariant unscheduled == Shortfall(problem, list[..k], ps)
      invariant |failures| == |before| + Hits(list[..k], UnmetDemands(problem, ps))
    {
      DemandStep(problem, list, ps, k);
      HitsNext(list, k, UnmetDemands(problem, ps));
      var missing, more := CheckOneDemand(problem, credit, ps, list[k], failures);
      failures, unscheduled := more, unscheduled + missing;
    }
    assert list[..|list|] == list;
  }

  method CheckOneDemand(problem: Problem, credit: multiset<Id>, ghost ps: seq<Placement>, a: Assignment, before: seq<Failure>)
    returns (missing: nat, failures: seq<Failure>)
    requires credit[a.id] == Credit(ps, a.id)
    ensures forall inv :: Raised(failures, inv) <==> Raised(before, inv) || (inv == DemandSatisfaction && !DemandMet(problem, ps, a))
    ensures missing == Missing(problem, ps, a)
    ensures |failures| == |before| + One(!DemandMet(problem, ps, a))
  {
    missing, failures := 0, before;
    if Mandated(problem, a) {
      var observed := credit[a.id];
      failures := Note(failures, observed != a.weekly, DemandSatisfaction, a.id, NO_ID);
      if observed < a.weekly {
        missing := a.weekly - observed;
      }
    }
  }

  lemma DemandStep(problem: Problem, list: seq<Assignment>, ps: seq<Placement>, k: nat)
    requires k < |list|
    ensures Shortfall(problem, list[..k + 1], ps) == Shortfall(problem, list[..k], ps) + Missing(problem, ps, list[k])
    ensures SomeDemandUnmet(problem, list[..k + 1], ps) <==> SomeDemandUnmet(problem, list[..k], ps) || !DemandMet(problem, ps, list[k])
  {
    assert list[..k + 1][..k] == list[..k];
    assert list[..k + 1] == list[..k] + [list[k]];
  }

  method CheckWorkload(problem: Problem, load: multiset<Id>, ghost ps: seq<Placement>, before: seq<Failure>) returns (failures: seq<Failure>)
    requires forall t :: load[t] == TeacherLoad(ps, t)
    ensures forall inv :: Raised(failures, inv) <==>
              Raised(before, inv) || (inv == WorkloadLimits && SomeOverworked(problem, ps))
    ensures |failures| == |before| + |set t | t in problem.teachers && Overworked(problem, ps, t)|
  {
    failures := before;
    var ids := KeysInSomeOrder(problem.teachers);
    ghost var over := false;
    hide UsablePeriods, TeacherLoad, Raised, Hits;
    NoHits(ids, OverworkedTeachers(problem, ps));
    for k := 0 to |ids|
      invariant over <==> exists j | 0 <= j < k :: Overworked(problem, ps, ids[j])
      invariant forall inv :: Raised(failures, inv) <==> Raised(before, inv) || (inv == WorkloadLimits && over)
      invariant |failures| == |before| + Hits(ids[..k], OverworkedTeachers(problem, ps))
    {
      HitsNext(ids, k, OverworkedTeachers(problem, ps));
      var t := problem.teachers[ids[k]];
      var periods := ComputeUsablePeriods(problem);
      var limit := CountAvailable(periods, t.unavailable);
      if t.workloadLimit > 0 && t.workloadLimit < limit {
        limit := t.workloadLimit;
      }
      over := over || Overworked(problem, ps, ids[k]);
      failures := Note(failures, load[ids[k]] > limit, WorkloadLimits, ids[k], NO_ID);
    }
    assert forall t | t in problem.teachers :: t in ids;
    OverworkedAre(problem, ps, ids);
  }

  lemma OverworkedAre(problem: Problem, ps: seq<Placement>, ids: seq<Id>)
    requires Distinct(ids) && forall t :: t in ids <==> t in problem.teachers
    ensures Hits(ids, OverworkedTeachers(problem, ps)) == |set t | t in problem.teachers && Overworked(problem, ps, t)|
  {
    HitsAreElements(ids, OverworkedTeachers(problem, ps));
    hide Overworked, Hits;
    assert (set x | x in ids && OverworkedTeachers(problem, ps)(x)) == (set t | t in problem.teachers && Overworked(problem, ps, t));
  }

  /** The lesson is tagged with the block, but its group does not belong to it. */
  predicate Mistagged(b: Block, p: Placement) {
    p.block == b.id && p.group != NO_ID && p.group !in b.groups && p.periods != []
  }

  /** The periods of each member, collected from the lessons of the block. */
  method CollectBlock(placements: seq<Placement>, b: Block) returns (faulted: bool, periodSets: map<Id, set<Id>>)
    ensures faulted <==> exists p | p in placements :: Mistagged(b, p)
    ensures !faulted ==> (forall g :: g in periodSets <==> g in b.groups)
    ensures !faulted ==> forall g | g in b.groups :: periodSets[g] == GroupPeriods(placements, b.id, g)
  {
    faulted, periodSets := false, map g | g in b.groups :: {};
    for k := 0 to |placements|
      invariant !faulted && forall j | 0 <= j < k :: !Mistagged(b, placements[j])
      invariant forall g :: g in periodSets <==> g in b.groups
      invariant forall g | g in b.groups :: periodSets[g] == GroupPeriods(placements[..k], b.id, g)
    {
      var p := placements[k];
      assert placements[..k + 1] == placements[..k] + [p];
      forall g ensures GroupPeriods(placements[..k + 1], b.id, g)
                    == GroupPeriods(placements[..k], b.id, g) + if p.block == b.id && p.group == g != NO_ID then Set(p.periods) else {} {
        GroupPeriodsAppend(placements[..k], p, b.id, g);
      }
      if p.block == b.id && p.group != NO_ID && p.periods != [] {
        if p.group !in periodSets {
          assert Mistagged(b, p);
          return true, periodSets;
        }
        periodSets := periodSets[p.group := periodSets[p.group] + Set(p.periods)];
      }
    }
    assert placements[..|placements|] == placements;
  }

  function Set(s: seq<Id>): set<Id> {
    set x | x in s
  }

  lemma GroupPeriodsAppend(ps: seq<Placement>, p: Placement, block: Id, group: Id)
    ensures GroupPeriods(ps + [p], block, group)
         == GroupPeriods(ps, block, group) + if p.block == block && p.group == group != NO_ID then Set(p.periods) else {}
  {
    var before, after := GroupPeriods(ps, block, group), GroupPeriods(ps + [p], block, group);
    forall q, per | q in ps + [p] && q.block == block && q.group == group && group != NO_ID && per in q.periods
      ensures per in before || (p.block == block && p.group == group && per in p.periods)
    {
      assert q in ps || q == p;
    }
    assert forall q | q in ps :: q in ps + [p];
    assert p in ps + [p];
    if p.block == block && p.group == group && group != NO_ID {
      assert after == before + Set(p.periods);
    } else {
      assert after == before;
    }
  }

  /** Every lesson tagged with an active block belongs to one of its groups. */
  ghost predicate TagsMatch(problem: Problem, ps: seq<Placement>) {
    forall p, b | p in ps && b in problem.blocks && ActiveBlock(problem, b) :: !Mistagged(b, p)
  }

  method CheckBlocks(problem: Problem, placements: seq<Placement>, before: seq<Failure>) returns (faulted: bool, failures: seq<Failure>)
    ensures faulted <==> !TagsMatch(problem, placements)
    ensures !faulted ==> forall inv :: Raised(failures, inv) <==>
              Raised(before, inv) || (inv == BlockSimultaneity && SomeBlockBroken(problem, placements))
    ensures !faulted ==> |failures| == |before| + AllOutOfStep(problem, problem.blocks, placements)
  {
    faulted, failures := false, before;
    ghost var broken := false;
    assert problem.blocks[..0] == [];
    assert AllOutOfStep(problem, [], placements) == 0;
    hide Raised, Mistagged, Hits, AllOutOfStep, OutOfStep, InStep;
    for k := 0 to |problem.blocks|
      invariant !faulted && forall j, p | 0 <= j < k && ActiveBlock(problem, problem.blocks[j]) && p in placements :: !Mistagged(problem.blocks[j], p)
      invariant broken <==> exists j | 0 <= j < k :: ActiveBlock(problem, problem.blocks[j]) && !InStep(placements, problem.blocks[j])
      invariant forall inv :: Raised(failures, inv) <==> Raised(before, inv) || (inv == BlockSimultaneity && broken)
      invariant |failures| == |before| + AllOutOfStep(problem, problem.blocks[..k], placements)
    {
      var b := problem.blocks[k];
      OutOfStepNext(problem, problem.blocks, k, placements);
      if ActiveBlock(problem, b) {
        faulted, failures := CheckBlock(placements, b, failures);
        if faulted {
          return;
        }
        broken := broken || !InStep(placements, b);
      }
    }
    assert problem.blocks[..|problem.blocks|] == problem.blocks;
  }

  lemma OutOfStepNext(problem: Problem, blocks: seq<Block>, k: nat, ps: seq<Placement>)
    requires k < |blocks|
    ensures AllOutOfStep(problem, blocks[..k + 1], ps)
         == AllOutOfStep(problem, blocks[..k], ps) + if ActiveBlock(problem, blocks[k]) then Hits(blocks[k].groups, OutOfStep(ps, blocks[k])) else 0
  {
    assert blocks[..k + 1][..k] == blocks[..k];
    hide Hits, OutOfStep;
  }

  method CheckBlock(placements: seq<Placement>, b: Block, before: seq<Failure>) returns (faulted: bool, failures: seq<Failure>)
    ensures faulted <==> exists p | p in placements :: Mistagged(b, p)
    ensures !faulted ==> forall inv :: Raised(failures, inv) <==> Raised(before, inv) || (inv == BlockSimultaneity && !InStep(placements, b))
    ensures !faulted ==> |failures| == |before| + Hits(b.groups, OutOfStep(placements, b))
  {
    var periodSets;
    failures := before;
    faulted, periodSets := CollectBlock(placements, b);
    if faulted {
      return;
    }
    ghost var broken := false;
    hide Raised, GroupPeriods, Mistagged, Hits;
    NoHits(b.groups, OutOfStep(placements, b));
    for k := 0 to |b.groups|
      invariant broken <==> exists j | 0 <= j < k :: periodSets[b.groups[j]] != periodSets[b.groups[0]]
      invariant forall inv :: Raised(failures, inv) <==> Raised(before, inv) || (inv == BlockSimultaneity && broken)
      invariant |failures| == |before| + Hits(b.groups[..k], OutOfStep(placements, b))
    {
      HitsNext(b.groups, k, OutOfStep(placements, b));
      broken := broken || periodSets[b.groups[k]] != periodSets[b.groups[0]];
      failures := Note(failures, periodSets[b.groups[k]] != periodSets[b.groups[0]], BlockSimultaneity, b.id, NO_ID);
    }
  }

  method CheckCoverage(counter: multiset<(Id, Id)>, periods: seq<Period>, entity: Id, unavailable: set<Id>, before: seq<Failure>)
    returns (failures: seq<Failure>)
    ensures forall inv :: Raised(failures, inv) <==>
              Raised(before, inv) || (inv == CohortCoverage && !CoveredOne(counter, periods, entity, unavailable))
    ensures |failures| == |before| + Hits(periods, UncoveredPeriods(counter, entity, unavailable))
  {
    failures := before;
    ghost var gap := false;
    hide Raised, Hits;
    NoHits(periods, UncoveredPeriods(counter, entity, unavailable));
    for k := 0 to |periods|
      invariant gap <==> exists j | 0 <= j < k :: periods[j].mandatory && periods[j].id !in unavailable && counter[(entity, periods[j].id)] != 1
      invariant forall inv :: Raised(failures, inv) <==> Raised(before, inv) || (inv == CohortCoverage && gap)
      invariant |failures| == |before| + Hits(periods[..k], UncoveredPeriods(counter, entity, unavailable))
    {
      HitsNext(periods, k, UncoveredPeriods(counter, entity, unavailable));
      var period := periods[k];
      if !period.mandatory || period.id in unavailable {
        continue;
      }
      gap := gap || counter[(entity, period.id)] != 1;
      failures := Note(failures, counter[(entity, period.id)] != 1, CohortCoverage, entity, period.id);
    }
  }

  ghost predicate CoveredAll(problem: Problem, counter: multiset<(Id, Id)>, ids: seq<Id>, learners: bool) {
    forall id | id in ids ::
      if learners then LocalLearner(problem, id) ==> CoveredOne(counter, UsablePeriods(problem), id, CohortUnavailable(problem, problem.learners[id].cohort))
      else LocalCohort(problem, id) ==> CoveredOne(counter, UsablePeriods(problem), id, CohortUnavailable(problem, id))
  }

  lemma CoveredAllStep(problem: Problem, counter: multiset<(Id, Id)>, ids: seq<Id>, learners: bool, k: nat)
    requires k < |ids|
    ensures CoveredAll(problem, counter, ids[..k + 1], learners) <==>
              CoveredAll(problem, counter, ids[..k], learners) && CoveredAll(problem, counter, [ids[k]], learners)
  {
    assert ids[..k + 1] == ids[..k] + [ids[k]];
  }

  method CheckFullCoverage(problem: Problem, c: Counters, ghost ps: seq<Placement>, before: seq<Failure>) returns (failures: seq<Failure>)
    requires Counts(c, ps)
    ensures forall inv :: Raised(failures, inv) <==> Raised(before, inv) || (inv == CohortCoverage && !Covered(problem, ps))
    ensures |failures| == |before| + |CoverageGaps(problem, ps)|
  {
    failures := before;
    var periods := ComputeUsablePeriods(problem);
    var learners := problem.learners != map[];
    var ids, counter;
    if learners {
      ids := KeysInSomeOrder(problem.learners);
      counter := c.learners;
    } else {
      ids := KeysInSomeOrder(problem.cohorts);
      counter := c.cohorts;
    }
    CoverageTarget(problem, c, ps, ids, counter, learners);
    GapsTarget(problem, c, ps, ids, counter, learners);
    hide Raised, CoveredOne, Bookings, UsablePeriods, Covered, CoveredAll, Counts, Gaps, CoverageGaps;
    for k := 0 to |ids|
      invariant forall inv :: Raised(failures, inv) <==> Raised(before, inv) || (inv == CohortCoverage && !CoveredAll(problem, counter, ids[..k], learners))
      invariant |failures| == |before| + |Gaps(problem, counter, Set(ids[..k]), learners)|
    {
      CoveredAllStep(problem, counter, ids, learners, k);
      GapsStep(problem, counter, ids, learners, k);
      failures := CheckEntity(problem, counter, periods, ids[k], learners, failures);
    }
    assert ids[..|ids|] == ids;
  }

  lemma GapsTarget(problem: Problem, c: Counters, ps: seq<Placement>, ids: seq<Id>, counter: multiset<(Id, Id)>, learners: bool)
    requires Counts(c, ps) && learners == (problem.learners != map[])
    requires learners ==> counter == c.learners && forall id :: id in ids <==> id in problem.learners
    requires !learners ==> counter == c.cohorts && forall id :: id in ids <==> id in problem.cohorts
    ensures Gaps(problem, counter, Set(ids), learners) == CoverageGaps(problem, ps)
    ensures Gaps(problem, counter, Set(ids[..0]), learners) == {}
  {
    hide *;
    CountsFields(c, ps);
    CoverageGapsAre(problem, ps);
    NoGaps(problem, counter, learners);
    KeysAsSet(ids, if learners then problem.learners.Keys else problem.cohorts.Keys);
    assert ids[..0] == [];
  }

  lemma CoverageGapsAre(problem: Problem, ps: seq<Placement>)
    ensures CoverageGaps(problem, ps) ==
              if problem.learners != map[] then Gaps(problem, Bookings(LearnerUse, ps), problem.learners.Keys, true)
              else Gaps(problem, Bookings(CohortUse, ps), problem.cohorts.Keys, false)
  {
    hide Gaps, Bookings;
  }

  lemma NoGaps(problem: Problem, counter: multiset<(Id, Id)>, learners: bool)
    ensures Gaps(problem, counter, Set([]), learners) == {}
  {
    hide UsablePeriods, MustBeCovered, Uncovered, AwayWhen;
  }

  lemma KeysAsSet(ids: seq<Id>, keys: set<Id>)
    requires forall id :: id in ids <==> id in keys
    ensures Set(ids) == keys
  {
  }

  /** The gaps of one entity. */
  ghost function Row(problem: Problem, counter: multiset<(Id, Id)>, id: Id, learners: bool): set<(Id, nat)> {
    Gaps(problem, counter, {id}, learners)
  }

  lemma GapsStep(problem: Problem, counter: multiset<(Id, Id)>, ids: seq<Id>, learners: bool, k: nat)
    requires Distinct(ids) && k < |ids|
    ensures |Gaps(problem, counter, Set(ids[..k + 1]), learners)| == |Gaps(problem, counter, Set(ids[..k]), learners)| + |Row(problem, counter, ids[k], learners)|
  {
    var before, after, row := Gaps(problem, counter, Set(ids[..k]), learners), Gaps(problem, counter, Set(ids[..k + 1]), learners),
                              Row(problem, counter, ids[k], learners);
    hide UsablePeriods, MustBeCovered, Uncovered, AwayWhen;
    assert ids[..k + 1] == ids[..k] + [ids[k]] && ids[k] !in ids[..k];
    assert Set(ids[..k + 1]) == Set(ids[..k]) + {ids[k]};
    forall x: (Id, nat)
      ensures x in after <==> x in before || x in row
      ensures !(x in before && x in row)
    {
    }
    hide Gaps, Row;
    assert after == before + row && before !! row;
  }

  lemma RowSize(problem: Problem, counter: multiset<(Id, Id)>, id: Id, learners: bool)
    ensures !MustBeCovered(problem, id, learners) ==> Row(problem, counter, id, learners) == {}
    ensures MustBeCovered(problem, id, learners) ==>
              |Row(problem, counter, id, learners)| == Hits(UsablePeriods(problem), UncoveredPeriods(counter, id, AwayWhen(problem, id, learners)))
  {
    hide MustBeCovered, Uncovered, AwayWhen;
    var periods := UsablePeriods(problem);
    hide UsablePeriods;
    if MustBeCovered(problem, id, learners) {
      var test := UncoveredPeriods(counter, id, AwayWhen(problem, id, learners));
      var places := Places(periods, test);
      var row := Row(problem, counter, id, learners);
      forall x: (Id, nat)
        ensures x in row <==> x.0 == id && x.1 in places
      {
      }
      hide Row, Places;
      PairedSize(id, places, row);
    } else {
      assert Row(problem, counter, id, learners) == {};
    }
  }

  lemma {:induction false} PairedSize(id: Id, places: set<nat>, row: set<(Id, nat)>)
    requires forall x: (Id, nat) :: x in row <==> x.0 == id && x.1 in places
    ensures |row| == |places|
    decreases places
  {
    if |places| == 0 {
      assert row == {};
    } else {
      var k: nat :| k in places;
      assert (id, k) in row;
      PairedSize(id, places - {k}, row - {(id, k)});
    }
  }

  lemma CoverageTarget(problem: Problem, c: Counters, ps: seq<Placement>, ids: seq<Id>, counter: multiset<(Id, Id)>, learners: bool)
    requires Counts(c, ps) && learners == (problem.learners != map[])
    requires learners ==> counter == c.learners && forall id :: id in ids <==> id in problem.learners
    requires !learners ==> counter == c.cohorts && forall id :: id in ids <==> id in problem.cohorts
    ensures Covered(problem, ps) <==> CoveredAll(problem, counter, ids, learners)
    ensures CoveredAll(problem, counter, ids[..0], learners)
  {
    CountsFields(c, ps);
  }

  method CheckEntity(problem: Problem, counter: multiset<(Id, Id)>, periods: seq<Period>, id: Id, learners: bool, before: seq<Failure>)
    returns (failures: seq<Failure>)
    requires periods == UsablePeriods(problem)
    ensures forall inv :: Raised(failures, inv) <==> Raised(before, inv) || (inv == CohortCoverage && !CoveredAll(problem, counter, [id], learners))
    ensures |failures| == |before| + |Row(problem, counter, id, learners)|
  {
    failures := before;
    assert id in [id];
    RowSize(problem, counter, id, learners);
    hide Raised, CoveredOne, Row, Hits;
    if learners {
      if LocalLearner(problem, id) {
        failures := CheckCoverage(counter, periods, id, CohortUnavailable(problem, problem.learners[id].cohort), failures);
      }
    } else if LocalCohort(problem, id) {
      failures := CheckCoverage(counter, periods, id, CohortUnavailable(problem, id), failures);
    }
  }

  lemma NothingYet(problem: Problem)
    ensures Counts(Counters(multiset{}, multiset{}, multiset{}, multiset{}, multiset{}, multiset{}, multiset{}), CountedOnly(problem, []))
    ensures forall inv :: !Raised([], inv) && !SomeFaulty(inv, problem, [])
    ensures AllLessonFaults(problem, []) == 0
  {
  }

  /** Checks and counts every lesson. */
  method CheckLessons(problem: Problem, placements: seq<Placement>) returns (failures: seq<Failure>, c: Counters)
    ensures forall inv :: Raised(failures, inv) <==> SomeFaulty(inv, problem, placements)
    ensures Counts(c, CountedOnly(problem, placements)) && |failures| == AllLessonFaults(problem, placements)
  {
    hide *;
    failures, c := [], Counters(multiset{}, multiset{}, multiset{}, multiset{}, multiset{}, multiset{}, multiset{});
    var all := AssignmentById(problem.assignments);
    assert placements[..0] == [];
    NothingYet(problem);
    for k := 0 to |placements|
      invariant forall inv :: Raised(failures, inv) <==> SomeFaulty(inv, problem, placements[..k])
      invariant Counts(c, CountedOnly(problem, placements[..k])) && |failures| == AllLessonFaults(problem, placements[..k])
    {
      var p := placements[k];
      assert placements[..k + 1] == placements[..k] + [p];
      FaultyAppend(problem, placements[..k], p);
      failures := CheckLesson(problem, p, all, failures);
      if Counted(problem, p) {
        c := CountLesson(c, p, CountedOnly(problem, placements[..k]));
      }
    }
    assert placements[..|placements|] == placements;
  }

  lemma FaultyAppend(problem: Problem, ps: seq<Placement>, p: Placement)
    ensures forall inv :: SomeFaulty(inv, problem, ps + [p]) <==> SomeFaulty(inv, problem, ps) || Faulty(inv, problem, p)
    ensures CountedOnly(problem, ps + [p]) == if Counted(problem, p) then CountedOnly(problem, ps) + [p] else CountedOnly(problem, ps)
    ensures AllLessonFaults(problem, ps + [p]) == AllLessonFaults(problem, ps) + LessonFaults(problem, p)
  {
    assert (ps + [p])[..|ps|] == ps;
    hide Faulty, LessonFaults;
    forall inv
      ensures SomeFaulty(inv, problem, ps + [p]) <==> SomeFaulty(inv, problem, ps) || Faulty(inv, problem, p)
    {
      assert forall q :: q in ps + [p] <==> q in ps || q == p;
    }
  }

  lemma CountsFields(c: Counters, ps: seq<Placement>)
    requires Counts(c, ps)
    ensures c.teachers == Bookings(TeacherUse, ps) && c.cohorts == Bookings(CohortUse, ps) && c.learners == Bookings(LearnerUse, ps)
    ensures c.groups == Bookings(GroupUse, ps) && c.resources == Bookings(ResourceUse, ps)
  {
    assert c.teachers == Tally(c, TeacherUse) && c.cohorts == Tally(c, CohortUse) && c.learners == Tally(c, LearnerUse);
    assert c.groups == Tally(c, GroupUse) && c.resources == Tally(c, ResourceUse);
  }

  /** The checks on the occupancy counters. */
  method CheckBookings(problem: Problem, c: Counters, ghost ps: seq<Placement>, before: seq<Failure>) returns (failures: seq<Failure>)
    requires Counts(c, ps)
    ensures forall inv :: Raised(failures, inv) <==>
              || Raised(before, inv)
              || (inv == TeacherBooking && !AtMostOnce(Bookings(TeacherUse, ps)))
              || (inv == CohortBooking && !AtMostOnce(Bookings(CohortUse, ps)))
              || (inv == LearnerBooking && !AtMostOnce(Bookings(LearnerUse, ps)))
              || (inv == GroupBooking && !AtMostOnce(Bookings(GroupUse, ps)))
              || (inv == ResourceExclusivity && Overbooked(Bookings(ResourceUse, ps), (id: Id) => Capacity(problem, id)))
    ensures |failures| == |before| + BookingFaults(problem, ps)
  {
    CountsFields(c, ps);
    hide *;
    var n := |before|;
    failures := CheckExclusive(c.teachers, TeacherBooking, before);
    failures := CheckExclusive(c.cohorts, CohortBooking, failures);
    failures := CheckExclusive(c.learners, LearnerBooking, failures);
    failures := CheckExclusive(c.groups, GroupBooking, failures);
    failures := CheckOccupancy(c.resources, Capacities(problem), ResourceExclusivity, failures);
    BookingFaultsAre(problem, ps);
  }

  /** All checks on the counters. */
  method CheckCounts(problem: Problem, placements: seq<Placement>, c: Counters, ghost ps: seq<Placement>, before: seq<Failure>)
    returns (faulted: bool, failures: seq<Failure>, unscheduled: nat)
    requires Counts(c, ps)
    ensures faulted <==> !TagsMatch(problem, placements)
    ensures !faulted ==> forall inv :: Raised(failures, inv) <==> Raised(before, inv) || Overall(inv, problem, placements, ps)
    ensures unscheduled == Shortfall(problem, problem.assignments, ps)
    ensures !faulted ==> |failures| == |before| + CountFaults(problem, placements, ps)
  {
    hide BookingFaults, Hits, AllOutOfStep, CoverageGaps, Overworked, UnmetDemands, Raised, Bookings, Covered, SomeDemandUnmet, SomeOverworked, SomeBlockBroken, Overbooked, Shortfall, AtMostOnce, Tally,
         TagsMatch, Credit, TeacherLoad, Capacity;
    failures := CheckBookings(problem, c, ps, before);
    failures, unscheduled := CheckDemand(problem, c.credit, ps, failures);
    failures := CheckWorkload(problem, c.load, ps, failures);
    faulted, failures := CheckBlocks(problem, placements, failures);
    if faulted {
      return;
    }
    if problem.fullCoverage {
      failures := CheckFullCoverage(problem, c, ps, failures);
    }
  }

  /** The occupancy check with a limit of one. */
  method CheckExclusive(counter: multiset<(Id, Id)>, check: Invariant, before: seq<Failure>) returns (failures: seq<Failure>)
    ensures forall inv :: Raised(failures, inv) <==> Raised(before, inv) || (inv == check && !AtMostOnce(counter))
    ensures |failures| == |before| + |Twice(counter)|
  {
    failures := CheckOccupancy(counter, (id: Id) => 1, check, before);
    assert Overbooked(counter, (id: Id) => 1) <==> !AtMostOnce(counter) by {
      if !AtMostOnce(counter) {
        var x :| counter[x] > 1;
        assert x in counter;
      }
    }
    assert Excess(counter, (id: Id) => 1) == Twice(counter);
  }

  /** A shortfall is always also a violated demand. */
  lemma {:induction false} ShortfallIsUnmet(problem: Problem, list: seq<Assignment>, ps: seq<Placement>)
    ensures Shortfall(problem, list, ps) > 0 ==> SomeDemandUnmet(problem, list, ps)
  {
    if list != [] {
      ShortfallIsUnmet(problem, list[..|list| - 1], ps);
      assert list[..|list|] == list;
      DemandStep(problem, list, ps, |list| - 1);
    }
  }

  lemma NothingRaised(failures: seq<Failure>)
    ensures failures == [] <==> forall inv :: !Raised(failures, inv)
  {
    if failures != [] {
      assert Raised(failures, failures[0].check);
    }
  }

  /** The whole validation: it faults exactly on a mistagged lesson; otherwise exactly the violated invariants are reported, the
      shortfall is exact, and the verdict is positive exactly when nothing is violated. */
  method ValidateSchedule(problem: Problem, placements: seq<Placement>) returns (outcome: Outcome)
    ensures outcome.Faulted? <==> !TagsMatch(problem, placements)
    ensures outcome.Reported? ==> forall inv :: Raised(outcome.report.failures, inv) <==> Violates(inv, problem, placements)
    ensures outcome.Reported? ==> outcome.report.unscheduled == Shortfall(problem, problem.assignments, CountedOnly(problem, placements))
    ensures outcome.Reported? ==>
              outcome.report.unscheduled + WeeklyGiven(problem, problem.assignments, CountedOnly(problem, placements)) == WeeklyAsked(problem, problem.assignments)
    ensures outcome.Reported? ==> outcome.report.hard == |outcome.report.failures| == HardFaults(problem, placements)
    ensures outcome.Reported? ==> (outcome.report.valid <==> outcome.report.hard == 0)
    ensures outcome.Reported? ==> (outcome.report.valid <==> ValidSchedule(problem, placements))
    ensures outcome.Reported? && outcome.report.valid ==> outcome.report.unscheduled == 0
  {
    hide Raised, Shortfall, CountedOnly, Overall, SomeFaulty, TagsMatch, Counts, AllLessonFaults, CountFaults;
    var failures, c := CheckLessons(problem, placements);
    ghost var ps := CountedOnly(problem, placements);
    var faulted, unscheduled;
    faulted, failures, unscheduled := CheckCounts(problem, placements, c, ps, failures);
    if faulted {
      return Faulted;
    }
    var soft := SoftViolations();
    outcome := Reported(Report(failures == [] && unscheduled == 0, |failures|, soft, unscheduled, failures));
    NothingRaised(failures);
    ShortfallIsTheRest(problem, problem.assignments, ps);
    ValidIffNothingViolated(problem, placements);
    hide ValidSchedule;
    if failures == [] {
      assert forall inv :: !Violates(inv, problem, placements);
      ReportedShortfall(problem, placements);
    }
  }

  lemma ReportedShortfall(problem: Problem, placements: seq<Placement>)
    requires forall inv :: !Violates(inv, problem, placements)
    ensures Shortfall(problem, problem.assignments, CountedOnly(problem, placements)) == 0
  {
    hide Shortfall, CountedOnly, SomeFaulty, SomeDemandUnmet, Covered, AtMostOnce, Bookings, SomeOverworked, SomeBlockBroken;
    assert !Violates(DemandSatisfaction, problem, placements);
    ShortfallIsUnmet(problem, problem.assignments, CountedOnly(problem, placements));
  }

  /** Repeated subjects, idle gaps and overlong runs; how many there are is not modelled. */
  method SoftViolations() returns (soft: nat) {
    soft := *;
  }

  // ----- the meaning of a positive verdict

  /** A lesson nothing can be said against: authorized, inside the workspace and the term, well timed, in open
      periods and with an open resource. */
  ghost predicate SoundLesson(problem: Problem, p: Placement) {
    var all := AssignmentById(problem.assignments);
    && Counted(problem, p)
    && QualifiedTeacher(problem, p)
    && (forall id | id in AssignmentIds(p) ::
          && AuthorizedCover(problem, p, id) && all[id].cohort in CohortIds(p)
          && (all[id].cohort, all[id].cohortSubject) in problem.registrations)
    && p.workspace == problem.workspace && all[PrimaryId(p)].workspace == problem.workspace
    && p.year == problem.year && p.term == problem.term
    && all[PrimaryId(p)].year == problem.year && all[PrimaryId(p)].term == problem.term
    && (forall c | c in CohortIds(p) :: LocalCohort(problem, c))
    && (forall l | l in p.learners :: EligibleLearner(problem, p, l))
    && WellTimed(problem, p)
    && (forall per | per in p.periods :: OpenPeriod(problem, p, per))
    && (p.resource != NO_ID ==> forall per | per in p.periods :: OpenResource(problem, p.resource, per))
  }

  /** What a timetable is for: sound lessons, nobody and nothing in two places at once, every mandatory demand met
      exactly, no teacher overworked, parallel groups in step and, when asked for, full coverage. */
  ghost predicate ValidSchedule(problem: Problem, ps: seq<Placement>) {
    && (forall p | p in ps :: SoundLesson(problem, p))
    && NoClash(TeacherUse, ps) && NoClash(CohortUse, ps) && NoClash(LearnerUse, ps) && NoClash(GroupUse, ps)
    && (forall x :: Bookings(ResourceUse, ps)[x] <= Capacity(problem, x.0))
    && (forall a | a in problem.assignments && Mandated(problem, a) :: Credit(ps, a.id) == a.weekly)
    && (forall t | t in problem.teachers :: TeacherLoad(ps, t) <= WorkloadCap(problem, problem.teachers[t]))
    && (forall b | b in problem.blocks && ActiveBlock(problem, b) :: InStep(ps, b))
    && (problem.fullCoverage ==> Covered(problem, ps))
  }

  lemma SoundIffFaultless(problem: Problem, p: Placement)
    ensures SoundLesson(problem, p) <==> forall inv :: !Faulty(inv, problem, p)
  {
    hide AssignmentIds, CohortIds, AssignmentById, LocalCohort, EligibleLearner, OpenPeriod, OpenResource, QualifiedTeacher,
         WellTimed, PrimaryId, AuthorizedCover;
    if forall inv :: !Faulty(inv, problem, p) {
      assert !Faulty(AssignmentAuthority, problem, p);
      assert !Faulty(CohortSubjectValidity, problem, p) && !Faulty(WorkspaceIsolation, problem, p);
      assert !Faulty(AcademicBoundaries, problem, p) && !Faulty(LearnerEligibility, problem, p);
      assert !Faulty(DoubleContiguity, problem, p) && !Faulty(LessonDuration, problem, p);
      assert !Faulty(PeriodExclusion, problem, p) && !Faulty(ResourceExclusivity, problem, p);
      CoversOf(problem, p);
    }
  }

  lemma CoversOf(problem: Problem, p: Placement)
    requires !SomeBadCover(problem, p) && !SomeUnregistered(problem, p)
    ensures forall id | id in AssignmentIds(p) ::
              && AuthorizedCover(problem, p, id) && AssignmentById(problem.assignments)[id].cohort in CohortIds(p)
              && (AssignmentById(problem.assignments)[id].cohort, AssignmentById(problem.assignments)[id].cohortSubject) in problem.registrations
  {
    forall id | id in AssignmentIds(p)
      ensures !BadCover(problem, p, id) && !Unregistered(problem, p, id)
    {
    }
  }

  lemma {:induction false} AllCounted(problem: Problem, ps: seq<Placement>)
    requires forall p | p in ps :: Counted(problem, p)
    ensures CountedOnly(problem, ps) == ps
  {
    hide Counted;
    if ps != [] {
      AllCounted(problem, ps[..|ps| - 1]);
      assert ps == ps[..|ps| - 1] + [ps[|ps| - 1]];
    }
  }

  lemma NothingOverall(problem: Problem, ps: seq<Placement>)
    ensures (forall inv :: !Overall(inv, problem, ps, ps)) <==>
              && NoClash(TeacherUse, ps) && NoClash(CohortUse, ps) && NoClash(LearnerUse, ps) && NoClash(GroupUse, ps)
              && !Overbooked(Bookings(ResourceUse, ps), (id: Id) => Capacity(problem, id))
              && !SomeDemandUnmet(problem, problem.assignments, ps) && !SomeOverworked(problem, ps) && !SomeBlockBroken(problem, ps)
              && (problem.fullCoverage ==> Covered(problem, ps))
  {
    ExclusiveIffNoClash(TeacherUse, ps);
    ExclusiveIffNoClash(CohortUse, ps);
    ExclusiveIffNoClash(LearnerUse, ps);
    ExclusiveIffNoClash(GroupUse, ps);
    hide NoClash, AtMostOnce, Bookings, Overbooked, SomeDemandUnmet, SomeOverworked, SomeBlockBroken, Covered, Capacity;
    if forall inv :: !Overall(inv, problem, ps, ps) {
      assert !Overall(TeacherBooking, problem, ps, ps) && !Overall(CohortBooking, problem, ps, ps);
      assert !Overall(LearnerBooking, problem, ps, ps) && !Overall(GroupBooking, problem, ps, ps);
      assert !Overall(ResourceExclusivity, problem, ps, ps) && !Overall(DemandSatisfaction, problem, ps, ps);
      assert !Overall(WorkloadLimits, problem, ps, ps) && !Overall(BlockSimultaneity, problem, ps, ps);
      assert !Overall(CohortCoverage, problem, ps, ps);
    }
  }

  lemma NotOverbooked(problem: Problem, ps: seq<Placement>)
    ensures !Overbooked(Bookings(ResourceUse, ps), (id: Id) => Capacity(problem, id))
       <==> forall x :: Bookings(ResourceUse, ps)[x] <= Capacity(problem, x.0)
  {
    var m := Bookings(ResourceUse, ps);
    if !Overbooked(m, (id: Id) => Capacity(problem, id)) {
      forall x ensures m[x] <= Capacity(problem, x.0) {
        if x !in m {
          assert m[x] == 0 && Capacity(problem, x.0) > 0;
        }
      }
    }
  }

  /** Every lesson is sound exactly when none has a fault. */
  lemma AllSoundIff(problem: Problem, ps: seq<Placement>)
    ensures (forall p | p in ps :: SoundLesson(problem, p)) <==> forall inv :: !SomeFaulty(inv, problem, ps)
    ensures (forall inv :: !SomeFaulty(inv, problem, ps)) ==> CountedOnly(problem, ps) == ps
  {
    hide SoundLesson, Faulty, Counted, CountedOnly;
    forall p | p in ps
      ensures SoundLesson(problem, p) <==> forall inv :: !Faulty(inv, problem, p)
    {
      SoundIffFaultless(problem, p);
    }
    if forall inv :: !SomeFaulty(inv, problem, ps) {
      forall p, inv | p in ps
        ensures !Faulty(inv, problem, p)
      {
        assert !SomeFaulty(inv, problem, ps);
      }
      FaultlessIsCounted(problem, ps);
      AllCounted(problem, ps);
    }
  }

  lemma ValidParts(problem: Problem, ps: seq<Placement>)
    ensures ValidSchedule(problem, ps) <==> (forall p | p in ps :: SoundLesson(problem, p)) && forall inv :: !Overall(inv, problem, ps, ps)
  {
    NothingOverall(problem, ps);
    NotOverbooked(problem, ps);
    hide SoundLesson, Overall, NoClash, Bookings, Overbooked, Covered, Credit, TeacherLoad, WorkloadCap, InStep;
  }

  /** The validator's verdict is positive exactly for the valid schedules. */
  lemma ValidIffNothingViolated(problem: Problem, ps: seq<Placement>)
    ensures (forall inv :: !Violates(inv, problem, ps)) <==> ValidSchedule(problem, ps)
  {
    AllSoundIff(problem, ps);
    ValidParts(problem, ps);
    hide SoundLesson, Overall, SomeFaulty, CountedOnly, ValidSchedule;
    if forall inv :: !Violates(inv, problem, ps) {
      forall inv
        ensures !SomeFaulty(inv, problem, ps) && !Overall(inv, problem, ps, CountedOnly(problem, ps))
      {
        assert !Violates(inv, problem, ps);
      }
    }
  }

  lemma FaultlessIsCounted(problem: Problem, ps: seq<Placement>)
    requires forall p, inv | p in ps :: !Faulty(inv, problem, p)
    ensures forall p | p in ps :: Counted(problem, p)
  {
    forall p | p in ps
      ensures Counted(problem, p)
    {
      assert !Faulty(AssignmentAuthority, problem, p);
    }
  }

  // ----- what the shortfall measures

  /** The periods that the mandatory assignments of the list ask for. */
  function WeeklyAsked(problem: Problem, list: seq<Assignment>): int {
    if list == [] then 0
    else
      var a := list[|list| - 1];
      WeeklyAsked(problem, list[..|list| - 1]) + if a.mandatory && a.active && a.workspace == problem.workspace && a.weekly > 0 then a.weekly else 0
  }

  /** The periods that they are given, without any beyond what they ask for. */
  function WeeklyGiven(problem: Problem, list: seq<Assignment>, ps: seq<Placement>): int {
    if list == [] then 0
    else
      var a := list[|list| - 1];
      WeeklyGiven(problem, list[..|list| - 1], ps)
      + if a.mandatory && a.active && a.workspace == problem.workspace && a.weekly > 0 then (if Credit(ps, a.id) <= a.weekly then Credit(ps, a.id) else a.weekly)
        else 0
  }

  /** The shortfall is what is asked for and not given. */
  lemma {:induction false} ShortfallIsTheRest(problem: Problem, list: seq<Assignment>, ps: seq<Placement>)
    ensures Shortfall(problem, list, ps) + WeeklyGiven(problem, list, ps) == WeeklyAsked(problem, list)
  {
    hide Credit;
    if list != [] {
      ShortfallIsTheRest(problem, list[..|list| - 1], ps);
    }
  }

  /** Of an empty timetable everything is missing. */
  lemma {:induction false} NothingGiven(problem: Problem, list: seq<Assignment>)
    ensures Shortfall(problem, list, []) == WeeklyAsked(problem, list)
  {
    if list != [] {
      NothingGiven(problem, list[..|list| - 1]);
    }
  }

  lemma {:induction false} OthersMiss(problem: Problem, list: seq<Assignment>, ps: seq<Placement>, p: Placement, a: Assignment)
    requires AssignmentIds(p) == [a.id] && forall b | b in list :: b.id != a.id
    ensures Shortfall(problem, list, ps + [p]) == Shortfall(problem, list, ps)
  {
    hide Credit, AssignmentIds;
    if list != [] {
      var last := list[|list| - 1];
      assert list == list[..|list| - 1] + [last];
      OthersMiss(problem, list[..|list| - 1], ps, p, a);
      CreditAppend(ps, p, last.id);
    }
  }

  /** A lesson for a mandatory assignment that still lacks its periods lowers the shortfall by as many. */
  lemma {:induction false} LessonHelps(problem: Problem, list: seq<Assignment>, ps: seq<Placement>, p: Placement, a: Assignment)
    requires DistinctIds(list) && a in list && a.mandatory && Schedulable(problem, a)
    requires AssignmentIds(p) == [a.id] && Credit(ps, a.id) + |p.periods| <= a.weekly
    ensures Shortfall(problem, list, ps + [p]) == Shortfall(problem, list, ps) - |p.periods|
  {
    hide Credit, AssignmentIds;
    var rest, last := list[..|list| - 1], list[|list| - 1];
    assert list == rest + [last];
    CreditAppend(ps, p, last.id);
    if a == last {
      forall b | b in rest
        ensures b.id != a.id
      {
        var i :| 0 <= i < |rest| && rest[i] == b;
        assert list[i].id != list[|rest|].id;
      }
      OthersMiss(problem, rest, ps, p, a);
    } else {
      assert a in rest;
      var i :| 0 <= i < |rest| && rest[i] == a;
      assert list[i].id != list[|rest|].id;
      LessonHelps(problem, rest, ps, p, a);
    }
  }

  // ----- what the validator does not look at

  /** The problems differ in nothing but double lessons. */
  ghost predicate SameButDoubles(problem: Problem, other: Problem) {
    && other == problem.(assignments := other.assignments) && |other.assignments| == |problem.assignments|
    && forall i | 0 <= i < |problem.assignments| :: other.assignments[i] == problem.assignments[i].(doubles := other.assignments[i].doubles)
  }

  lemma {:induction false} LookupButDoubles(s: seq<Assignment>, t: seq<Assignment>)
    requires |s| == |t| && forall i | 0 <= i < |s| :: t[i] == s[i].(doubles := t[i].doubles)
    ensures AssignmentById(s).Keys == AssignmentById(t).Keys
    ensures forall id | id in AssignmentById(s) :: AssignmentById(t)[id] == AssignmentById(s)[id].(doubles := AssignmentById(t)[id].doubles)
  {
    if s != [] {
      LookupButDoubles(s[..|s| - 1], t[..|t| - 1]);
    }
  }

  lemma SoundButDoubles(problem: Problem, other: Problem, p: Placement)
    requires SameButDoubles(problem, other) && SoundLesson(problem, p)
    ensures SoundLesson(other, p)
  {
    LookupButDoubles(problem.assignments, other.assignments);
    var all, others := AssignmentById(problem.assignments), AssignmentById(other.assignments);
    hide AssignmentById, AssignmentIds, CohortIds, PeriodById;
    assert others[PrimaryId(p)] == all[PrimaryId(p)].(doubles := others[PrimaryId(p)].doubles);
    forall per | per in p.periods
      ensures OpenPeriod(other, p, per)
    {
      assert OpenPeriod(problem, p, per);
    }
    forall c | c in CohortIds(p)
      ensures LocalCohort(other, c)
    {
      assert LocalCohort(problem, c);
    }
    forall l | l in p.learners
      ensures EligibleLearner(other, p, l)
    {
      assert EligibleLearner(problem, p, l);
    }
  }

  lemma ValidButDoubles(problem: Problem, other: Problem, ps: seq<Placement>)
    requires SameButDoubles(problem, other) && ValidSchedule(problem, ps)
    ensures ValidSchedule(other, ps)
  {
    assert UsablePeriods(other) == UsablePeriods(problem);
    hide SoundLesson, NoClash, Bookings, UsablePeriods, InStep, CoveredOne, Credit, TeacherLoad, AvailableCount;
    forall p | p in ps
      ensures SoundLesson(other, p)
    {
      SoundButDoubles(problem, other, p);
    }
    forall a | a in other.assignments && Mandated(other, a)
      ensures Credit(ps, a.id) == a.weekly
    {
      var i :| 0 <= i < |other.assignments| && other.assignments[i] == a;
      assert problem.assignments[i] in problem.assignments && Mandated(problem, problem.assignments[i]);
    }
    forall x
      ensures Bookings(ResourceUse, ps)[x] <= Capacity(other, x.0)
    {
      assert Bookings(ResourceUse, ps)[x] <= Capacity(problem, x.0);
    }
    forall t | t in other.teachers
      ensures TeacherLoad(ps, t) <= WorkloadCap(other, other.teachers[t])
    {
      assert TeacherLoad(ps, t) <= WorkloadCap(problem, problem.teachers[t]);
    }
    forall b | b in other.blocks && ActiveBlock(other, b)
      ensures InStep(ps, b)
    {
      assert ActiveBlock(problem, b);
    }
    assert other.fullCoverage ==> Covered(other, ps) by {
      if other.fullCoverage {
        CoveredButDoubles(problem, other, ps);
      }
    }
  }

  lemma CoveredButDoubles(problem: Problem, other: Problem, ps: seq<Placement>)
    requires SameButDoubles(problem, other) && Covered(problem, ps)
    ensures Covered(other, ps)
  {
    assert UsablePeriods(other) == UsablePeriods(problem);
    hide Bookings, UsablePeriods, CoveredOne;
    assert forall c :: LocalCohort(other, c) <==> LocalCohort(problem, c);
    assert forall l :: LocalLearner(other, l) <==> LocalLearner(problem, l);
    assert forall c :: CohortUnavailable(other, c) == CohortUnavailable(problem, c);
  }

  /** Which double lessons are asked for makes no difference to the validator. */
  lemma DoublesAreNotChecked(problem: Problem, other: Problem, ps: seq<Placement>)
    requires SameButDoubles(problem, other)
    ensures ValidSchedule(problem, ps) <==> ValidSchedule(other, ps)
  {
    hide ValidSchedule;
    if ValidSchedule(problem, ps) {
      ValidButDoubles(problem, other, ps);
    }
    if ValidSchedule(other, ps) {
      ValidButDoubles(other, problem, ps);
    }
  }
}

/** What a silent preflight means, counted one by one: the conditions on the problem, without the preflight's own sums. */
module PreflightMeaning {
  import opened Model
  import opened Ledger
  import opened Counting
  import Adjacency
  import Matching
  import TeacherMatching
  import Necessity
  import Preflight

  /** The assignment is in scope, for a teacher and a cohort of the workspace who may have it, and its doubles fit its periods. */
  predicate Sensible(problem: Problem, a: Assignment) {
    && a.year == problem.year && a.term == problem.term
    && a.teacher in problem.teachers && problem.teachers[a.teacher].workspace == problem.workspace
    && a.cohort in problem.cohorts && problem.cohorts[a.cohort].workspace == problem.workspace
    && (a.cohort, a.cohortSubject) in problem.registrations
    && (problem.teachers[a.teacher].qualified == {} || a.subject in problem.teachers[a.teacher].qualified)
    && 2 * a.doubles <= a.weekly
  }

  /** There are as many disjoint adjacent pairs as double lessons are asked for. */
  ghost predicate PairsSuffice(problem: Problem, party: Party, unavailable: set<Id>) {
    exists starts: set<nat> ::
      Adjacency.DisjointPairs(UsablePeriods(problem), unavailable, starts) && |starts| >= |AskedDoubles(problem, problem.assignments, party)|
  }

  ghost predicate TeacherFits(problem: Problem, t: Id)
    requires t in problem.teachers
  {
    var teacher, asked := problem.teachers[t], |Asked(problem, problem.assignments, Teaching(t))|;
    && asked <= |FreeWeek(problem, teacher.unavailable)| && (teacher.workloadLimit > 0 ==> asked <= teacher.workloadLimit)
    && PairsSuffice(problem, Teaching(t), teacher.unavailable)
  }

  ghost predicate CohortFits(problem: Problem, c: Id)
    requires c in problem.cohorts
  {
    var asked := Asked(problem, problem.assignments, Learning(c));
    && |asked| <= |FreeWeek(problem, problem.cohorts[c].unavailable)| && PairsSuffice(problem, Learning(c), problem.cohorts[c].unavailable)
    && (problem.fullCoverage && asked != {} ==> |asked| == |FreeWeek(problem, {})|)
  }

  /** The lessons that need the resource fit its places in the periods in which it is free. */
  ghost predicate ResourceFits(problem: Problem, r: Id) {
    Asked(problem, problem.assignments, Using(r)) != {} ==>
      && r in problem.resources && problem.resources[r].workspace == problem.workspace
      && |Asked(problem, problem.assignments, Using(r))| <=
           |FreeWeek(problem, problem.resources[r].unavailable)| * if problem.resources[r].capacity > 0 then problem.resources[r].capacity else 1
  }

  /** All lessons fit the seats of all teachers of the workspace. */
  ghost predicate TotalFits(problem: Problem) {
    var here := set t | t in problem.teachers && problem.teachers[t].workspace == problem.workspace;
    |Asked(problem, problem.assignments, Everybody)| <= |Seats(problem, here)|
  }

  ghost function CohortsHere(problem: Problem, per: Id): set<Id> {
    set c | c in problem.cohorts && problem.cohorts[c].workspace == problem.workspace && per !in problem.cohorts[c].unavailable
  }

  ghost function TeachersHere(problem: Problem, per: Id): set<Id> {
    set t | t in problem.teachers && problem.teachers[t].workspace == problem.workspace && per !in problem.teachers[t].unavailable
  }

  /** The assignments could be taught at the same time in the period: different teachers, different cohorts, nobody unavailable. */
  ghost predicate AtOnce(problem: Problem, choice: seq<Assignment>, per: Id) {
    && (forall a | a in choice :: && a in problem.assignments && a.active && a.workspace == problem.workspace && a.weekly > 0
                                  && a.teacher in problem.teachers && per !in problem.teachers[a.teacher].unavailable
                                  && a.cohort in problem.cohorts && per !in problem.cohorts[a.cohort].unavailable)
    && forall i, j | 0 <= i < j < |choice| :: choice[i].teacher != choice[j].teacher && choice[i].cohort != choice[j].cohort
  }

  /** There are enough teachers for all cohorts in the period, and lessons that teach as many cohorts at once. */
  ghost predicate PeriodFits(problem: Problem, per: Id) {
    && |CohortsHere(problem, per)| <= |TeachersHere(problem, per)|
    && exists choice: seq<Assignment> :: AtOnce(problem, choice, per) && |choice| >= |CohortsHere(problem, per)|
  }

  ghost predicate AllFit(problem: Problem) {
    && problem.workspace != NO_ID && problem.year != NO_ID && problem.term != NO_ID && FreeWeek(problem, {}) != {}
    && (forall a | a in problem.assignments && Schedulable(problem, a) :: Sensible(problem, a))
    && (forall t | t in problem.teachers :: TeacherFits(problem, t)) && (forall c | c in problem.cohorts :: CohortFits(problem, c))
    && (forall r: Id :: ResourceFits(problem, r)) && TotalFits(problem)
    && (problem.fullCoverage ==> forall p | p in problem.periods && p.teaching && !p.excluded :: PeriodFits(problem, p.id))
  }

  // ----- one kind of issue after the other

  ghost predicate Silent(problem: Problem, code: Preflight.Code) {
    forall id: Id :: !Preflight.Raises(problem, Preflight.Issue(code, id))
  }

  lemma FeasibleIsSilent(problem: Problem)
    ensures Preflight.Feasible(problem) <==> forall code :: Silent(problem, code)
  {
    hide Preflight.Raises;
    if forall code :: Silent(problem, code) {
      forall i
        ensures !Preflight.Raises(problem, i)
      {
        assert Silent(problem, i.code) && i == Preflight.Issue(i.code, i.entity);
      }
    }
  }

  predicate OfAssignments(code: Preflight.Code) {
    code.OutsideScope? || code.MissingTeacher? || code.MissingCohort? || code.UnregisteredSubject? || code.NotQualified? || code.InvalidDoubles?
  }

  lemma AssignmentsSilent(problem: Problem)
    ensures (forall code | OfAssignments(code) :: Silent(problem, code)) <==>
              forall a | a in problem.assignments && Schedulable(problem, a) :: Sensible(problem, a)
  {
    if forall code | OfAssignments(code) :: Silent(problem, code) {
      forall a | a in problem.assignments && Schedulable(problem, a)
        ensures Sensible(problem, a)
      {
        SensibleBySilence(problem, a);
      }
    }
    if forall a | a in problem.assignments && Schedulable(problem, a) :: Sensible(problem, a) {
      forall code, id | OfAssignments(code)
        ensures !Preflight.Raises(problem, Preflight.Issue(code, id))
      {
      }
    }
  }

  lemma SensibleBySilence(problem: Problem, a: Assignment)
    requires a in problem.assignments && Schedulable(problem, a) && forall code | OfAssignments(code) :: Silent(problem, code)
    ensures Sensible(problem, a)
  {
    NotRaised(problem, a, Preflight.OutsideScope, a.id);
    NotRaised(problem, a, Preflight.MissingTeacher, a.id);
    NotRaised(problem, a, Preflight.MissingCohort, a.id);
    NotRaised(problem, a, Preflight.UnregisteredSubject, a.id);
    NotRaised(problem, a, Preflight.InvalidDoubles, a.id);
    if a.teacher in problem.teachers {
      NotRaised(problem, a, Preflight.NotQualified, problem.teachers[a.teacher].id);
    }
    hide Silent;
  }

  lemma NotRaised(problem: Problem, a: Assignment, code: Preflight.Code, id: Id)
    requires a in problem.assignments && OfAssignments(code) && Silent(problem, code)
    ensures !Preflight.AssignmentRaises(problem, a, Preflight.Issue(code, id))
  {
    hide Preflight.AssignmentRaises;
    assert !Preflight.Raises(problem, Preflight.Issue(code, id));
  }

  lemma PairsAre(problem: Problem, party: Party, unavailable: set<Id>)
    requires WellFormed(problem)
    ensures PairsSuffice(problem, party, unavailable) <==>
              Preflight.Demand(problem, problem.assignments, TargetOf(party), Preflight.DoubleBlocks)
              <= |Adjacency.Greedy(UsablePeriods(problem), 0, unavailable)|
  {
    AskedSize(problem, problem.assignments, party);
    hide AskedDoubles, Asked, Preflight.Demand, Preflight.Demanded, Adjacency.Greedy, Adjacency.DisjointPairs, UsablePeriods;
    Adjacency.GreedyIsMost(UsablePeriods(problem), unavailable);
  }

  lemma TeachersSilent(problem: Problem)
    requires WellFormed(problem)
    ensures Silent(problem, Preflight.TeacherCapacity) && Silent(problem, Preflight.TeacherAdjacency) <==>
              forall t | t in problem.teachers :: TeacherFits(problem, t)
  {
    forall t | t in problem.teachers
      ensures TeacherFits(problem, t) <==>
                && !Preflight.Raises(problem, Preflight.Issue(Preflight.TeacherCapacity, t))
                && !Preflight.Raises(problem, Preflight.Issue(Preflight.TeacherAdjacency, t))
    {
      TeacherIs(problem, t);
    }
    hide TeacherFits, Preflight.Demand, Preflight.Demanded;
    assert forall id: Id | id !in problem.teachers :: !Preflight.TeacherRaises(problem, id, Preflight.TeacherCapacity)
                                                     && !Preflight.TeacherRaises(problem, id, Preflight.TeacherAdjacency);
    hide Preflight.TeacherRaises;
  }

  lemma TeacherIs(problem: Problem, t: Id)
    requires WellFormed(problem) && t in problem.teachers
    ensures TeacherFits(problem, t) <==>
              && !Preflight.Raises(problem, Preflight.Issue(Preflight.TeacherCapacity, t))
              && !Preflight.Raises(problem, Preflight.Issue(Preflight.TeacherAdjacency, t))
  {
    var party, teacher := Teaching(t), problem.teachers[t];
    PairsAre(problem, party, teacher.unavailable);
    AskedSize(problem, problem.assignments, party);
    CapIsBound(problem, teacher, |Asked(problem, problem.assignments, party)|);
    NothingAsked(problem, party);
    hide WellFormed, Asked, AskedDoubles, FreeWeek, WorkloadCap, Preflight.Demand, Preflight.Demanded, PairsSuffice, Adjacency.Greedy;
  }

  lemma NothingAsked(problem: Problem, party: Party)
    ensures !Preflight.Demanded(problem, problem.assignments, TargetOf(party)) ==>
              && Preflight.Demand(problem, problem.assignments, TargetOf(party), Preflight.WeeklyPeriods) == 0
              && Preflight.Demand(problem, problem.assignments, TargetOf(party), Preflight.DoubleBlocks) == 0
  {
    hide Preflight.Demand, Preflight.Demanded;
    if !Preflight.Demanded(problem, problem.assignments, TargetOf(party)) {
      Preflight.NotDemanded(problem, problem.assignments, TargetOf(party), Preflight.WeeklyPeriods);
      Preflight.NotDemanded(problem, problem.assignments, TargetOf(party), Preflight.DoubleBlocks);
    }
  }

  lemma CohortIs(problem: Problem, c: Id)
    requires WellFormed(problem) && c in problem.cohorts
    ensures CohortFits(problem, c) <==>
              && !Preflight.Raises(problem, Preflight.Issue(Preflight.CohortCapacity, c))
              && !Preflight.Raises(problem, Preflight.Issue(Preflight.CohortAdjacency, c))
              && !Preflight.Raises(problem, Preflight.Issue(Preflight.CoverageMismatch, c))
  {
    var party, unavailable := Learning(c), problem.cohorts[c].unavailable;
    PairsAre(problem, party, unavailable);
    AskedSize(problem, problem.assignments, party);
    FreeWeekSize(problem, unavailable);
    FreeWeekSize(problem, {});
    AllAvailable(UsablePeriods(problem));
    NothingAsked(problem, party);
    hide WellFormed, Asked, AskedDoubles, FreeWeek, AvailableCount, UsablePeriods, Preflight.Demand, Preflight.Demanded, PairsSuffice, Adjacency.Greedy;
  }

  lemma CohortsSilent(problem: Problem)
    requires WellFormed(problem)
    ensures Silent(problem, Preflight.CohortCapacity) && Silent(problem, Preflight.CohortAdjacency) && Silent(problem, Preflight.CoverageMismatch) <==>
              forall c | c in problem.cohorts :: CohortFits(problem, c)
  {
    forall c | c in problem.cohorts
      ensures CohortFits(problem, c) <==>
                && !Preflight.Raises(problem, Preflight.Issue(Preflight.CohortCapacity, c))
                && !Preflight.Raises(problem, Preflight.Issue(Preflight.CohortAdjacency, c))
                && !Preflight.Raises(problem, Preflight.Issue(Preflight.CoverageMismatch, c))
    {
      CohortIs(problem, c);
    }
    hide CohortFits, Preflight.Demand, Preflight.Demanded;
    assert forall id: Id, code | id !in problem.cohorts :: !Preflight.CohortRaises(problem, id, code);
    hide Preflight.CohortRaises;
  }

  lemma ResourceIs(problem: Problem, r: Id)
    requires WellFormed(problem)
    ensures ResourceFits(problem, r) <==>
              && !Preflight.Raises(problem, Preflight.Issue(Preflight.MissingResource, r))
              && !Preflight.Raises(problem, Preflight.Issue(Preflight.ResourceCapacity, r))
  {
    AskedSize(problem, problem.assignments, Using(r));
    if r in problem.resources {
      FreeWeekSize(problem, problem.resources[r].unavailable);
    }
    hide WellFormed, Asked, AskedDoubles, FreeWeek, AvailableCount, UsablePeriods, Preflight.Demand, Preflight.Demanded;
  }

  lemma ResourcesSilent(problem: Problem)
    requires WellFormed(problem)
    ensures Silent(problem, Preflight.MissingResource) && Silent(problem, Preflight.ResourceCapacity) <==> forall r: Id :: ResourceFits(problem, r)
  {
    forall r: Id
      ensures ResourceFits(problem, r) <==>
                && !Preflight.Raises(problem, Preflight.Issue(Preflight.MissingResource, r))
                && !Preflight.Raises(problem, Preflight.Issue(Preflight.ResourceCapacity, r))
    {
      ResourceIs(problem, r);
    }
    hide ResourceFits, Preflight.Raises;
  }

  lemma TotalSilent(problem: Problem)
    requires WellFormed(problem)
    ensures Silent(problem, Preflight.TotalCapacity) <==> TotalFits(problem)
  {
    var here := set t | t in problem.teachers && problem.teachers[t].workspace == problem.workspace;
    assert here == Preflight.LocalTeachers(problem);
    AskedSize(problem, problem.assignments, Everybody);
    SeatsSize(problem, here);
    hide WellFormed, Asked, AskedDoubles, Seats, Preflight.Demand, Preflight.Demanded, Preflight.Capacities;
    assert Silent(problem, Preflight.TotalCapacity) <==> !Preflight.Raises(problem, Preflight.Issue(Preflight.TotalCapacity, NO_ID));
  }

  lemma ScopeSilent(problem: Problem)
    requires WellFormed(problem)
    ensures Silent(problem, Preflight.MissingScope) <==> problem.workspace != NO_ID && problem.year != NO_ID && problem.term != NO_ID
    ensures Silent(problem, Preflight.NoUsablePeriods) <==> FreeWeek(problem, {}) != {}
  {
    FreeWeekSize(problem, {});
    AllAvailable(UsablePeriods(problem));
    hide WellFormed, FreeWeek, UsablePeriods, AvailableCount;
    assert Silent(problem, Preflight.MissingScope) <==> !Preflight.Raises(problem, Preflight.Issue(Preflight.MissingScope, NO_ID));
    assert Silent(problem, Preflight.NoUsablePeriods) <==> !Preflight.Raises(problem, Preflight.Issue(Preflight.NoUsablePeriods, NO_ID));
  }

  // ----- periods

  lemma SamePeople(problem: Problem, per: Id)
    ensures CohortsHere(problem, per) == Preflight.CohortsRequired(problem, per) && TeachersHere(problem, per) == Preflight.TeachersAvailable(problem, per)
  {
  }

  /** Edges that can be chosen at once, from assignments that can be taught at once. */
  lemma EdgesOf(problem: Problem, choice: seq<Assignment>, per: Id) returns (edges: seq<Matching.Edge>)
    requires AtOnce(problem, choice, per)
    ensures |edges| == |choice| && TeacherMatching.IsDisjointChoice(Preflight.EligibleEdges(problem, problem.assignments, per), edges)
  {
    edges := seq(|choice|, i requires 0 <= i < |choice| => Matching.Edge(choice[i].teacher, choice[i].cohort, choice[i].id));
    hide Preflight.EligibleEdges;
    forall e | e in edges
      ensures e in Preflight.EligibleEdges(problem, problem.assignments, per)
    {
      var i :| 0 <= i < |edges| && edges[i] == e;
      assert choice[i] in choice;
      Necessity.EligibleIsListed(problem, problem.assignments, per, choice[i]);
    }
  }

  /** And back. */
  lemma AssignmentsOf(problem: Problem, edges: seq<Matching.Edge>, per: Id) returns (choice: seq<Assignment>)
    requires TeacherMatching.IsDisjointChoice(Preflight.EligibleEdges(problem, problem.assignments, per), edges)
    ensures |edges| == |choice| && AtOnce(problem, choice, per)
  {
    choice := [];
    hide Preflight.EligibleEdges;
    for k := 0 to |edges|
      invariant |choice| == k && forall j | 0 <= j < k :: edges[j].left == choice[j].teacher && edges[j].right == choice[j].cohort
      invariant AtOnce(problem, choice, per)
    {
      assert edges[k] in edges;
      var a := Necessity.EdgeOrigin(problem, problem.assignments, per, edges[k]);
      choice := choice + [a];
    }
  }

  lemma PeriodIs(problem: Problem, per: Id)
    requires problem.fullCoverage
    ensures PeriodFits(problem, per) <==>
              && !Preflight.PeriodRaises(problem, per, Preflight.TeacherShortage)
              && !Preflight.PeriodRaises(problem, per, Preflight.EligibilityShortage)
  {
    SamePeople(problem, per);
    var edges := Preflight.EligibleEdges(problem, problem.assignments, per);
    hide CohortsHere, TeachersHere, Preflight.CohortsRequired, Preflight.TeachersAvailable, AtOnce, Preflight.EligibleEdges;
    if choice: seq<Assignment> :| AtOnce(problem, choice, per) && |choice| >= |CohortsHere(problem, per)| {
      var some := EdgesOf(problem, choice, per);
    }
    if some: seq<Matching.Edge> :| TeacherMatching.IsDisjointChoice(edges, some) && |some| >= |CohortsHere(problem, per)| {
      var choice := AssignmentsOf(problem, some, per);
    }
  }

  lemma PeriodsSilent(problem: Problem)
    ensures Silent(problem, Preflight.TeacherShortage) && Silent(problem, Preflight.EligibilityShortage) <==>
              (problem.fullCoverage ==> forall p | p in problem.periods && p.teaching && !p.excluded :: PeriodFits(problem, p.id))
  {
    UsablePeriodsElements(problem);
    hide UsablePeriods;
    if problem.fullCoverage {
      forall p | p in UsablePeriods(problem)
        ensures PeriodFits(problem, p.id) <==>
                  && !Preflight.PeriodRaises(problem, p.id, Preflight.TeacherShortage)
                  && !Preflight.PeriodRaises(problem, p.id, Preflight.EligibilityShortage)
      {
        PeriodIs(problem, p.id);
      }
      hide PeriodFits, Preflight.PeriodRaises;
      ShortagesSilent(problem);
    } else {
      hide PeriodFits;
    }
  }

  lemma ShortagesSilent(problem: Problem)
    ensures Silent(problem, Preflight.TeacherShortage) <==> forall p | p in UsablePeriods(problem) :: !Preflight.PeriodRaises(problem, p.id, Preflight.TeacherShortage)
    ensures Silent(problem, Preflight.EligibilityShortage) <==>
              forall p | p in UsablePeriods(problem) :: !Preflight.PeriodRaises(problem, p.id, Preflight.EligibilityShortage)
  {
    hide UsablePeriods, Preflight.PeriodRaises;
    forall p | p in UsablePeriods(problem)
      ensures Preflight.PeriodRaises(problem, p.id, Preflight.TeacherShortage) ==> Preflight.Raises(problem, Preflight.Issue(Preflight.TeacherShortage, p.id))
      ensures Preflight.PeriodRaises(problem, p.id, Preflight.EligibilityShortage) ==> Preflight.Raises(problem, Preflight.Issue(Preflight.EligibilityShortage, p.id))
    {
    }
  }

  // ----- the whole preflight

  lemma EveryCode(problem: Problem)
    ensures (forall code :: Silent(problem, code)) <==>
              && Silent(problem, Preflight.MissingScope) && Silent(problem, Preflight.NoUsablePeriods)
              && (forall code | OfAssignments(code) :: Silent(problem, code))
              && Silent(problem, Preflight.TeacherCapacity) && Silent(problem, Preflight.TeacherAdjacency)
              && Silent(problem, Preflight.CohortCapacity) && Silent(problem, Preflight.CohortAdjacency) && Silent(problem, Preflight.CoverageMismatch)
              && Silent(problem, Preflight.MissingResource) && Silent(problem, Preflight.ResourceCapacity) && Silent(problem, Preflight.TotalCapacity)
              && Silent(problem, Preflight.TeacherShortage) && Silent(problem, Preflight.EligibilityShortage)
  {
    hide Silent;
    forall code: Preflight.Code
      ensures || OfAssignments(code) || code.MissingScope? || code.NoUsablePeriods? || code.TeacherCapacity? || code.TeacherAdjacency?
              || code.CohortCapacity? || code.CohortAdjacency? || code.CoverageMismatch? || code.MissingResource? || code.ResourceCapacity?
              || code.TotalCapacity? || code.TeacherShortage? || code.EligibilityShortage?
    {
    }
  }

  /** The preflight is silent exactly when there is a scope and a week, every scheduled assignment is sensible, what is asked of every
      teacher, cohort and resource and of all teachers together fits, doubles included, and under full coverage every cohort's demand is
      the week and every period can be taught to all cohorts at once. */
  lemma SilentIff(problem: Problem)
    requires WellFormed(problem)
    ensures Preflight.Feasible(problem) <==> AllFit(problem)
  {
    hide *;
    FeasibleIsSilent(problem);
    EveryCode(problem);
    ScopeSilent(problem);
    AssignmentsSilent(problem);
    TeachersSilent(problem);
    CohortsSilent(problem);
    ResourcesSilent(problem);
    TotalSilent(problem);
    PeriodsSilent(problem);
    AllFitIs(problem);
  }

  lemma AllFitIs(problem: Problem)
    ensures AllFit(problem) <==>
              && (problem.workspace != NO_ID && problem.year != NO_ID && problem.term != NO_ID) && FreeWeek(problem, {}) != {}
              && (forall a | a in problem.assignments && Schedulable(problem, a) :: Sensible(problem, a))
              && (forall t | t in problem.teachers :: TeacherFits(problem, t)) && (forall c | c in problem.cohorts :: CohortFits(problem, c))
              && (forall r: Id :: ResourceFits(problem, r)) && TotalFits(problem)
              && (problem.fullCoverage ==> forall p | p in problem.periods && p.teaching && !p.excluded :: PeriodFits(problem, p.id))
  {
    hide FreeWeek, Schedulable, Sensible, TeacherFits, CohortFits, ResourceFits, TotalFits, PeriodFits;
  }
}

/** Demand and capacity counted one by one: sets of periods, of lessons asked for and of seats, and how many elements they have. */
module Counting {
  import opened Model
  import opened Ledger
  import Necessity
  import Preflight
  import Engine

  // ----- ranges

  /** The pairs of one name with the numbers below `n`. */
  ghost function Row(id: Id, n: int): set<(Id, int)> {
    set k | 0 <= k < n :: (id, k)
  }

  lemma {:induction false} RowSize(id: Id, n: int)
    ensures |Row(id, n)| == if n < 0 then 0 else n
  {
    if n <= 0 {
      assert Row(id, n) == {};
    } else {
      RowSize(id, n - 1);
      assert Row(id, n) == Row(id, n - 1) + {(id, n - 1)};
    }
  }

  // ----- periods

  /** The periods of the week in which somebody is available who is not available in `unavailable`. */
  ghost function FreeWeek(problem: Problem, unavailable: set<Id>): set<Id> {
    set p | p in problem.periods && p.teaching && !p.excluded && p.id !in unavailable :: p.id
  }

  lemma {:induction false} NotAvailable(periods: seq<Period>, unavailable: set<Id>)
    ensures forall id | id in Necessity.AvailableIds(periods, unavailable) :: id !in unavailable
  {
    if periods != [] {
      NotAvailable(periods[..|periods| - 1], unavailable);
    }
  }

  lemma FreeWeekSize(problem: Problem, unavailable: set<Id>)
    requires WellFormed(problem)
    ensures |FreeWeek(problem, unavailable)| == AvailableCount(UsablePeriods(problem), unavailable)
  {
    var periods := UsablePeriods(problem);
    var ids := Necessity.AvailableIds(periods, unavailable);
    Engine.UsableFacts(problem);
    UsablePeriodsElements(problem);
    hide UsablePeriods, AvailableCount, WellFormed, PeriodById;
    Necessity.AvailableIdsFacts(periods, unavailable);
    NotAvailable(periods, unavailable);
    hide Necessity.AvailableIds;
    forall id
      ensures id in FreeWeek(problem, unavailable) <==> id in ids
    {
      if id in ids {
        var p :| p in periods && p.id == id;
        assert p in problem.periods;
      }
      if id in FreeWeek(problem, unavailable) {
        var p :| p in problem.periods && p.teaching && !p.excluded && p.id == id && p.id !in unavailable;
        assert p in periods;
      }
    }
    DistinctSetSize(ids, FreeWeek(problem, unavailable));
  }

  // ----- demand

  /** Whom an assignment concerns. */
  datatype Party = Teaching(id: Id) | Learning(id: Id) | Using(id: Id) | Everybody

  /** The assignment is scheduled, both of its ends are here, and it concerns the party. */
  predicate Concerns(problem: Problem, a: Assignment, party: Party) {
    && a.active && a.workspace == problem.workspace && a.weekly > 0
    && a.teacher in problem.teachers && problem.teachers[a.teacher].workspace == problem.workspace
    && a.cohort in problem.cohorts && problem.cohorts[a.cohort].workspace == problem.workspace
    && match party
       case Teaching(t) => a.teacher == t
       case Learning(c) => a.cohort == c
       case Using(r) => a.resource == r && r != NO_ID
       case Everybody => true
  }

  /** The periods that the assignments ask of the party, one by one. */
  ghost function Asked(problem: Problem, list: seq<Assignment>, party: Party): set<(Id, int)> {
    set a, k | a in list && Concerns(problem, a, party) && 0 <= k < a.weekly :: (a.id, k)
  }

  /** And the double lessons. */
  ghost function AskedDoubles(problem: Problem, list: seq<Assignment>, party: Party): set<(Id, int)> {
    set a, k | a in list && Concerns(problem, a, party) && 0 <= k < a.doubles :: (a.id, k)
  }

  function TargetOf(party: Party): Preflight.Target {
    match party
    case Teaching(t) => Preflight.OfTeacher(t)
    case Learning(c) => Preflight.OfCohort(c)
    case Using(r) => Preflight.OfResource(r)
    case Everybody => Preflight.OfAll
  }

  lemma ConcernsIs(problem: Problem, a: Assignment, party: Party)
    ensures Concerns(problem, a, party) <==> Preflight.Bookable(problem, a) && Preflight.Hits(TargetOf(party), a)
  {
  }

  lemma AskedMore(problem: Problem, rest: seq<Assignment>, a: Assignment, party: Party)
    requires DistinctIds(rest + [a])
    ensures |Asked(problem, rest + [a], party)| == |Asked(problem, rest, party)| + if Concerns(problem, a, party) then a.weekly else 0
    ensures |AskedDoubles(problem, rest + [a], party)| == |AskedDoubles(problem, rest, party)| + if Concerns(problem, a, party) then a.doubles else 0
  {
    forall b | b in rest
      ensures b.id != a.id
    {
      var i :| 0 <= i < |rest| && rest[i] == b;
      assert (rest + [a])[i] == b && (rest + [a])[|rest|] == a;
    }
    hide Concerns, DistinctIds;
    assert forall b :: b in rest + [a] <==> b in rest || b == a;
    RowSize(a.id, a.weekly);
    RowSize(a.id, a.doubles);
    WeeklyMore(problem, rest, a, party);
    DoublesMore(problem, rest, a, party);
  }

  lemma WeeklyMore(problem: Problem, rest: seq<Assignment>, a: Assignment, party: Party)
    requires (forall b | b in rest :: b.id != a.id) && (Concerns(problem, a, party) ==> |Row(a.id, a.weekly)| == a.weekly)
    requires forall b :: b in rest + [a] <==> b in rest || b == a
    ensures |Asked(problem, rest + [a], party)| == |Asked(problem, rest, party)| + if Concerns(problem, a, party) then a.weekly else 0
  {
    hide Concerns;
    var before, more := Asked(problem, rest, party), Row(a.id, a.weekly);
    if Concerns(problem, a, party) {
      assert Asked(problem, rest + [a], party) == before + more;
      assert before !! more;
    } else {
      assert Asked(problem, rest + [a], party) == before;
    }
  }

  lemma DoublesMore(problem: Problem, rest: seq<Assignment>, a: Assignment, party: Party)
    requires (forall b | b in rest :: b.id != a.id) && |Row(a.id, a.doubles)| == a.doubles
    requires forall b :: b in rest + [a] <==> b in rest || b == a
    ensures |AskedDoubles(problem, rest + [a], party)| == |AskedDoubles(problem, rest, party)| + if Concerns(problem, a, party) then a.doubles else 0
  {
    hide Concerns;
    var before, more := AskedDoubles(problem, rest, party), Row(a.id, a.doubles);
    if Concerns(problem, a, party) {
      assert AskedDoubles(problem, rest + [a], party) == before + more;
      assert before !! more;
    } else {
      assert AskedDoubles(problem, rest + [a], party) == before;
    }
  }

  /** The demand totals of the preflight count what is asked. */
  lemma {:induction false} AskedSize(problem: Problem, list: seq<Assignment>, party: Party)
    requires DistinctIds(list)
    ensures |Asked(problem, list, party)| == Preflight.Demand(problem, list, TargetOf(party), Preflight.WeeklyPeriods)
    ensures |AskedDoubles(problem, list, party)| == Preflight.Demand(problem, list, TargetOf(party), Preflight.DoubleBlocks)
    ensures Asked(problem, list, party) != {} <==> Preflight.Demanded(problem, list, TargetOf(party))
  {
    if list != [] {
      var rest, a := list[..|list| - 1], list[|list| - 1];
      assert list == rest + [a];
      ConcernsIs(problem, a, party);
      assert Concerns(problem, a, party) ==> a.weekly > 0;
      hide Concerns, Preflight.Bookable, Preflight.Hits;
      AskedMore(problem, rest, a, party);
      hide Asked, AskedDoubles;
      AskedSize(problem, rest, party);
      Preflight.DemandAppend(problem, rest, a, TargetOf(party), Preflight.WeeklyPeriods);
      Empty(Asked(problem, rest, party));
      Empty(Asked(problem, list, party));
    }
  }

  lemma Empty(s: set<(Id, int)>)
    ensures s != {} <==> |s| > 0
  {
  }

  // ----- the seats of all teachers

  /** One seat for each period that the teacher can teach, up to the workload limit. */
  ghost function SeatsOf(problem: Problem, id: Id, t: Teacher): set<(Id, int)> {
    set k | 0 <= k < |FreeWeek(problem, t.unavailable)| && (t.workloadLimit > 0 ==> k < t.workloadLimit) :: (id, k)
  }

  ghost function Seats(problem: Problem, ids: set<Id>): set<(Id, int)>
    requires ids <= problem.teachers.Keys
  {
    set t, x | t in ids && x in SeatsOf(problem, t, problem.teachers[t]) :: x
  }

  lemma CapIsBound(problem: Problem, t: Teacher, n: int)
    requires WellFormed(problem) && n >= 0
    ensures n <= WorkloadCap(problem, t) <==> n <= |FreeWeek(problem, t.unavailable)| && (t.workloadLimit > 0 ==> n <= t.workloadLimit)
    ensures WorkloadCap(problem, t) >= 0
  {
    FreeWeekSize(problem, t.unavailable);
    hide WellFormed, FreeWeek, AvailableCount, UsablePeriods;
  }

  lemma SeatsOfSize(problem: Problem, id: Id, t: Teacher)
    requires WellFormed(problem)
    ensures |SeatsOf(problem, id, t)| == WorkloadCap(problem, t)
    ensures forall x | x in SeatsOf(problem, id, t) :: x.0 == id
  {
    FreeWeekSize(problem, t.unavailable);
    var cap := WorkloadCap(problem, t);
    hide WellFormed, FreeWeek, AvailableCount, UsablePeriods;
    RowSize(id, cap);
    assert SeatsOf(problem, id, t) == Row(id, cap);
  }

  lemma {:induction false} SeatsSize(problem: Problem, ids: set<Id>)
    requires WellFormed(problem) && ids <= problem.teachers.Keys
    ensures |Seats(problem, ids)| == Preflight.Capacities(problem, ids)
    ensures forall x | x in Seats(problem, ids) :: x.0 in ids
    decreases ids
  {
    if ids == {} {
      assert Seats(problem, ids) == {};
    } else {
      var t :| t in ids;
      hide WellFormed, SeatsOf, WorkloadCap, Preflight.Capacities;
      SeatsSize(problem, ids - {t});
      Preflight.CapacitiesRemove(problem, ids, t);
      SeatsOfSize(problem, t, problem.teachers[t]);
      var rest, own := Seats(problem, ids - {t}), SeatsOf(problem, t, problem.teachers[t]);
      assert Seats(problem, ids) == rest + own;
      assert rest !! own;
    }
  }
}

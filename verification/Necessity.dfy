/** The preflight rejects nothing that can be solved: a valid timetable of plain lessons refutes every issue. */
module Necessity {
  import opened Model
  import opened Lessons
  import opened Ledger
  import opened Loads
  import opened Validator
  import opened Adjacency
  import Preflight
  import Matching
  import TeacherMatching
  import Agreement
  import Engine

  /** A lesson of one scheduled assignment for its whole cohort, with the assignment's resource. */
  ghost predicate PlainLesson(problem: Problem, p: Placement) {
    && p.assignment in Schedule(problem) && p.assignments == [] && p.cohorts == [] && p.learners == []
    && p.resource == Schedule(problem)[p.assignment].resource
  }

  /** No two periods share a place in the week. */
  ghost predicate DistinctSlots(problem: Problem) {
    forall p, q | p in problem.periods && q in problem.periods && p != q :: p.day != q.day || p.index != q.index
  }

  /** A valid timetable of plain lessons in which every assignment is mandatory and has its double lessons. */
  ghost predicate Witness(problem: Problem, ps: seq<Placement>) {
    && ValidSchedule(problem, ps)
    && (forall p | p in ps :: PlainLesson(problem, p))
    && (forall a | a in problem.assignments && Schedulable(problem, a) :: a.mandatory && DoubleCount(ps, a.id) >= a.doubles)
  }

  /** There is a scope and a week to plan. */
  predicate Scoped(problem: Problem) {
    problem.workspace != NO_ID && problem.year != NO_ID && problem.term != NO_ID && UsablePeriods(problem) != []
  }

  /** The cohort has a lesson in every usable period. */
  ghost predicate Filled(problem: Problem, ps: seq<Placement>, c: Id) {
    forall p | p in UsablePeriods(problem) :: Booked(CohortUse, ps, c, p.id)
  }

  ghost predicate NeverFree(problem: Problem, c: Id) {
    forall p | p in UsablePeriods(problem) :: CohortBlocked(problem, c, p.id)
  }

  /** What the preflight takes full coverage for: every cohort with demand has a lesson in every usable period, and every other
      cohort is never available. */
  ghost predicate FullyTaught(problem: Problem, ps: seq<Placement>) {
    forall c | LocalCohort(problem, c) ::
      if Preflight.Demanded(problem, problem.assignments, Preflight.OfCohort(c)) then Filled(problem, ps, c) else NeverFree(problem, c)
  }

  /** What the preflight takes for a solution. */
  ghost predicate Solution(problem: Problem, ps: seq<Placement>) {
    Witness(problem, ps) && (problem.fullCoverage ==> FullyTaught(problem, ps))
  }

  /** A week to plan in which full coverage has its plain meaning: mandatory periods and cohorts that are always available. */
  ghost predicate Settled(problem: Problem) {
    && Scoped(problem) && DistinctSlots(problem)
    && (problem.fullCoverage ==>
          && problem.learners == map[] && (forall p | p in UsablePeriods(problem) :: p.mandatory)
          && forall c | LocalCohort(problem, c) :: CohortUnavailable(problem, c) == {})
  }

  // ----- plain lessons

  lemma PlainFacts(problem: Problem, p: Placement)
    requires WellFormed(problem) && SoundLesson(problem, p) && PlainLesson(problem, p)
    ensures p.assignment in Schedule(problem) && IsPlain(problem, p)
    ensures var a := Schedule(problem)[p.assignment];
            && Teaches(problem, p, a) && a.id == p.assignment && Keys(CohortUse, p) == [a.cohort]
            && a.year == problem.year && a.term == problem.term && (a.cohort, a.cohortSubject) in problem.registrations
            && (problem.teachers[a.teacher].qualified == {} || a.subject in problem.teachers[a.teacher].qualified)
            && WellTimed(problem, p) && (forall per | per in p.periods :: OpenPeriod(problem, p, per))
            && CohortIds(p) == [a.cohort]
  {
    ScheduleEntries(problem);
    AssignmentByIdEntries(problem.assignments);
    var a := Schedule(problem)[p.assignment];
    assert AssignmentIds(p) == [a.id];
    assert AssignmentById(problem.assignments)[a.id] == a;
    hide Schedule, AssignmentById, WellTimed, OpenPeriod, WellFormed;
    assert a.cohort in CohortIds(p);
    assert Teaches(problem, p, a);
  }

  lemma PlainSchedule(problem: Problem, ps: seq<Placement>)
    requires WellFormed(problem) && Witness(problem, ps)
    ensures PlainLessons(problem, ps)
  {
    hide PlainLesson, SoundLesson, IsPlain, Schedule, WellFormed, Bookings, NoClash, Covered;
    forall p | p in ps
      ensures IsPlain(problem, p)
    {
      PlainFacts(problem, p);
    }
  }

  /** Every scheduled assignment has a lesson. */
  lemma LessonFor(problem: Problem, ps: seq<Placement>, a: Assignment) returns (p: Placement)
    requires WellFormed(problem) && Witness(problem, ps) && a in problem.assignments && Schedulable(problem, a)
    ensures p in ps && p.assignment == a.id && p.periods != [] && PlainLesson(problem, p) && SoundLesson(problem, p)
    ensures Schedule(problem)[a.id] == a && a.id in Schedule(problem)
  {
    ScheduleEntries(problem);
    hide Schedule, SoundLesson, WellFormed;
    assert Mandated(problem, a) && Credit(ps, a.id) == a.weekly;
    CreditedHasLesson(ps, a.id);
    p :| p in ps && a.id in AssignmentIds(p) && p.periods != [];
    assert AssignmentIds(p) == [p.assignment] by {
      assert PlainLesson(problem, p);
    }
  }

  lemma {:induction false} DoublesWithinCredit(problem: Problem, ps: seq<Placement>, id: Id)
    requires WellFormed(problem) && id != NO_ID
    requires forall p | p in ps :: p.assignments == [] && WellTimed(problem, p)
    ensures 2 * DoubleCount(ps, id) <= Credit(ps, id)
  {
    if ps != [] {
      var rest, last := ps[..|ps| - 1], ps[|ps| - 1];
      assert ps == rest + [last];
      DoublesWithinCredit(problem, rest, id);
      assert last in ps;
    }
  }

  /** No issue is raised about an assignment. */
  lemma AssignmentIsFine(problem: Problem, ps: seq<Placement>, a: Assignment, i: Preflight.Issue)
    requires WellFormed(problem) && Witness(problem, ps) && a in problem.assignments
    ensures !Preflight.AssignmentRaises(problem, a, i)
  {
    if Schedulable(problem, a) {
      hide Schedule, WellFormed, SoundLesson;
      var p := LessonFor(problem, ps, a);
      PlainFacts(problem, p);
      forall q | q in ps
        ensures q.assignments == [] && WellTimed(problem, q)
      {
        PlainFacts(problem, q);
      }
      assert a.id != NO_ID by {
        ScheduleEntries(problem);
      }
      DoublesWithinCredit(problem, ps, a.id);
      assert Mandated(problem, a);
    }
  }

  // ----- demand is load

  lemma DemandIsLoad(problem: Problem, ps: seq<Placement>, target: Preflight.Target)
    requires WellFormed(problem) && Witness(problem, ps)
    ensures Preflight.Demand(problem, problem.assignments, target, Preflight.WeeklyPeriods) == Load(ps, target)
  {
    PlainSchedule(problem, ps);
    assert forall a | a in problem.assignments && Schedulable(problem, a) :: Mandated(problem, a);
    hide Schedule, PlainLesson, SoundLesson, PlainLessons, Load, CreditSum, Preflight.Demand;
    CreditMeetsDemand(problem, problem.assignments, ps, target);
    LoadIsCredit(problem, ps, target);
  }

  /** The double lessons that hit the target. */
  function DoubleLoad(ps: seq<Placement>, target: Preflight.Target): nat {
    if ps == [] then 0
    else DoubleLoad(ps[..|ps| - 1], target) + if ps[|ps| - 1].double && LessonHits(target, ps[|ps| - 1]) then 1 else 0
  }

  ghost function DoubleSum(problem: Problem, list: seq<Assignment>, ps: seq<Placement>, target: Preflight.Target): int {
    if list == [] then 0
    else
      var a := list[|list| - 1];
      DoubleSum(problem, list[..|list| - 1], ps, target)
      + if Preflight.Bookable(problem, a) && Preflight.Hits(target, a) then DoubleCount(ps, a.id) else 0
  }

  lemma {:induction false} DoubleSumAppend(problem: Problem, list: seq<Assignment>, ps: seq<Placement>, p: Placement, a: Assignment,
                                           target: Preflight.Target)
    requires DistinctIds(list) && Preflight.Bookable(problem, a) && p.assignment == a.id
    requires forall b | b in list && b.id == a.id :: b == a
    ensures DoubleSum(problem, list, ps + [p], target)
         == DoubleSum(problem, list, ps, target) + if p.double && a in list && Preflight.Hits(target, a) then 1 else 0
  {
    hide Preflight.Bookable, DoubleCount, Preflight.Hits;
    if list != [] {
      var rest, last := list[..|list| - 1], list[|list| - 1];
      assert list == rest + [last];
      DoubleSumAppend(problem, rest, ps, p, a, target);
      DoubleCountAppend(ps, p, last.id);
    }
  }

  lemma {:induction false} DoubleSumEmpty(problem: Problem, list: seq<Assignment>, target: Preflight.Target)
    ensures DoubleSum(problem, list, [], target) == 0
  {
    if list != [] {
      DoubleSumEmpty(problem, list[..|list| - 1], target);
    }
  }

  /** Every lesson teaches a bookable assignment, which it names. */
  ghost predicate Named(problem: Problem, p: Placement) {
    exists a :: Teaches(problem, p, a) && p.assignment == a.id
  }

  lemma {:induction false} DoubleLoadIsSum(problem: Problem, ps: seq<Placement>, target: Preflight.Target)
    requires DistinctIds(problem.assignments) && forall p | p in ps :: Named(problem, p)
    ensures DoubleLoad(ps, target) == DoubleSum(problem, problem.assignments, ps, target)
  {
    if ps == [] {
      DoubleSumEmpty(problem, problem.assignments, target);
    } else {
      var rest, p := ps[..|ps| - 1], ps[|ps| - 1];
      assert ps == rest + [p];
      assert p in ps && forall q | q in rest :: q in ps;
      DoubleLoadIsSum(problem, rest, target);
      assert Named(problem, p);
      var a :| Teaches(problem, p, a) && p.assignment == a.id;
      SameId(problem.assignments, a);
      DoubleSumAppend(problem, problem.assignments, rest, p, a, target);
      assert LessonHits(target, p) == Preflight.Hits(target, a);
    }
  }

  lemma {:induction false} DoublesCoverDemand(problem: Problem, list: seq<Assignment>, ps: seq<Placement>, target: Preflight.Target)
    requires forall a | a in list && Schedulable(problem, a) :: DoubleCount(ps, a.id) >= a.doubles
    ensures Preflight.Demand(problem, list, target, Preflight.DoubleBlocks) <= DoubleSum(problem, list, ps, target)
  {
    hide DoubleCount, Preflight.Hits;
    if list != [] {
      var rest, last := list[..|list| - 1], list[|list| - 1];
      assert list == rest + [last];
      DoublesCoverDemand(problem, rest, ps, target);
    }
  }

  /** The demand for double lessons is met by double lessons. */
  lemma DoubleDemandIsMet(problem: Problem, ps: seq<Placement>, target: Preflight.Target)
    requires WellFormed(problem) && Witness(problem, ps)
    ensures Preflight.Demand(problem, problem.assignments, target, Preflight.DoubleBlocks) <= DoubleLoad(ps, target)
  {
    hide Schedule, PlainLesson, SoundLesson, DoubleLoad, DoubleSum, Preflight.Demand, Bookings, NoClash, Covered, Teaches;
    forall p | p in ps
      ensures Named(problem, p)
    {
      PlainFacts(problem, p);
      assert Teaches(problem, p, Schedule(problem)[p.assignment]);
    }
    DoublesCoverDemand(problem, problem.assignments, ps, target);
    DoubleLoadIsSum(problem, ps, target);
  }

  // ----- double lessons are disjoint adjacent pairs

  predicate SlotAt(periods: seq<Period>, p: Placement, i: nat, unavailable: set<Id>) {
    Pairable(periods, i, unavailable) && p.periods == [periods[i].id, periods[i + 1].id]
  }

  lemma NothingBetween(problem: Problem, first: Period, m: Period, second: Period)
    requires DistinctSlots(problem) && first in problem.periods && m in problem.periods && second in problem.periods
    requires m != first && m != second && first.day == second.day && second.index == first.index + 1
    ensures !(NoLater(first, m) && NoLater(m, second))
  {
  }

  lemma OrderAt(s: seq<Period>, a: nat, b: nat)
    requires InWeekOrder(s) && a <= b < |s|
    ensures NoLater(s[a], s[b])
  {
  }

  /** In the order of the week, the period after `i` on the same day is at the next position. */
  lemma NextPosition(problem: Problem, i: nat, j: nat)
    requires WellFormed(problem) && DistinctSlots(problem)
    requires i < |UsablePeriods(problem)| && j < |UsablePeriods(problem)|
    requires var periods := UsablePeriods(problem); periods[i].day == periods[j].day && periods[j].index == periods[i].index + 1
    ensures j == i + 1
  {
    var periods := UsablePeriods(problem);
    UsablePeriodsElements(problem);
    Engine.UsableFacts(problem);
    hide UsablePeriods, WellFormed, DistinctSlots;
    forall k | 0 <= k < |periods| && k != i && k != j
      ensures !(NoLater(periods[i], periods[k]) && NoLater(periods[k], periods[j]))
    {
      NothingBetween(problem, periods[i], periods[k], periods[j]);
    }
    OrderAt(periods, if i < j then i else j, if i < j then j else i);
    var k := if i + 1 < |periods| then i + 1 else i;
    OrderAt(periods, i, k);
    OrderAt(periods, if k < j then k else j, if k < j then j else k);
  }

  lemma PositionOf(problem: Problem, per: Id) returns (i: nat)
    requires WellFormed(problem) && Engine.UsableId(problem, per)
    ensures i < |UsablePeriods(problem)| && UsablePeriods(problem)[i].id == per
    ensures PeriodById(problem.periods)[per] == UsablePeriods(problem)[i]
  {
    hide *;
    Engine.UsableIsListed(problem, per);
    Engine.UsableFacts(problem);
    i :| 0 <= i < |UsablePeriods(problem)| && UsablePeriods(problem)[i].id == per;
  }

  lemma DoubleHasSlot(problem: Problem, p: Placement, unavailable: set<Id>) returns (i: nat)
    requires WellFormed(problem) && DistinctSlots(problem) && p.double && WellTimed(problem, p)
    requires forall per | per in p.periods :: per !in unavailable
    ensures SlotAt(UsablePeriods(problem), p, i, unavailable)
  {
    hide UsablePeriods, WellFormed, DistinctSlots, PeriodById;
    assert p.periods[0] in p.periods && p.periods[1] in p.periods;
    i := PositionOf(problem, p.periods[0]);
    var j := PositionOf(problem, p.periods[1]);
    NextPosition(problem, i, j);
  }

  ghost predicate AllBooked(kind: Kind, ps: seq<Placement>, key: Id, periods: seq<Period>, starts: set<nat>) {
    forall s | s in starts :: s + 1 < |periods| && Booked(kind, ps, key, periods[s].id) && Booked(kind, ps, key, periods[s + 1].id)
  }

  lemma BookedMore(kind: Kind, rest: seq<Placement>, p: Placement, key: Id, per: Id)
    ensures Booked(kind, rest, key, per) ==> Booked(kind, rest + [p], key, per)
    ensures key in Keys(kind, p) && per in p.periods ==> Booked(kind, rest + [p], key, per)
  {
    assert forall q :: q in rest + [p] <==> q in rest || q == p;
  }

  /** A pair that is not booked yet is disjoint from the booked pairs. */
  lemma AddStart(kind: Kind, rest: seq<Placement>, p: Placement, key: Id, periods: seq<Period>, starts: set<nat>, i: nat, unavailable: set<Id>)
    requires DisjointPairs(periods, unavailable, starts) && AllBooked(kind, rest, key, periods, starts)
    requires SlotAt(periods, p, i, unavailable) && key in Keys(kind, p)
    requires forall per | per in p.periods :: !Booked(kind, rest, key, per)
    ensures DisjointPairs(periods, unavailable, starts + {i}) && AllBooked(kind, rest + [p], key, periods, starts + {i})
    ensures |starts + {i}| == |starts| + 1
  {
    hide Booked, Keys;
    assert periods[i].id in p.periods && periods[i + 1].id in p.periods;
    assert !Booked(kind, rest, key, periods[i].id) && !Booked(kind, rest, key, periods[i + 1].id);
    forall s | s in starts + {i}
      ensures s + 1 < |periods| && Booked(kind, rest + [p], key, periods[s].id) && Booked(kind, rest + [p], key, periods[s + 1].id)
    {
      BookedMore(kind, rest, p, key, periods[s].id);
      BookedMore(kind, rest, p, key, periods[s + 1].id);
    }
    forall s | s in starts
      ensures s + 2 <= i || i + 2 <= s
    {
      assert s != i && s + 1 != i && s != i + 1;
    }
  }

  /** The positions at which the first lessons that hit the target have their double lessons. */
  ghost predicate StartsFor(kind: Kind, ps: seq<Placement>, key: Id, target: Preflight.Target, periods: seq<Period>, unavailable: set<Id>, starts: set<nat>) {
    DisjointPairs(periods, unavailable, starts) && AllBooked(kind, ps, key, periods, starts) && |starts| == DoubleLoad(ps, target)
  }

  /** The lesson has the key; and if it is double, a place in the list of periods. */
  ghost predicate Placed(kind: Kind, p: Placement, key: Id, periods: seq<Period>, unavailable: set<Id>) {
    key in Keys(kind, p) && (p.double ==> exists i: nat :: SlotAt(periods, p, i, unavailable))
  }

  lemma NextStart(kind: Kind, rest: seq<Placement>, p: Placement, key: Id, target: Preflight.Target, periods: seq<Period>, unavailable: set<Id>,
                  before: set<nat>) returns (starts: set<nat>)
    requires NoClash(kind, rest + [p]) && StartsFor(kind, rest, key, target, periods, unavailable, before)
    requires LessonHits(target, p) ==> Placed(kind, p, key, periods, unavailable)
    ensures StartsFor(kind, rest + [p], key, target, periods, unavailable, starts)
  {
    hide NoClash, LessonHits, DisjointPairs, AllBooked, DoubleLoad, SlotAt, Keys, BookedPeriods, Booked;
    DoubleLoadAppend(rest, p, target);
    if p.double && LessonHits(target, p) {
      var i: nat :| SlotAt(periods, p, i, unavailable);
      FreshPeriods(kind, rest, p, key);
      BookedPeriodsMember(kind, rest, key);
      AddStart(kind, rest, p, key, periods, before, i, unavailable);
      starts := before + {i};
    } else {
      StillBooked(kind, rest, p, key, periods, before);
      starts := before;
    }
  }

  lemma {:induction false} DoubleStarts(kind: Kind, ps: seq<Placement>, key: Id, target: Preflight.Target, periods: seq<Period>, unavailable: set<Id>)
    returns (starts: set<nat>)
    requires NoClash(kind, ps)
    requires forall p | p in ps && LessonHits(target, p) :: Placed(kind, p, key, periods, unavailable)
    ensures StartsFor(kind, ps, key, target, periods, unavailable, starts)
  {
    if ps == [] {
      starts := {};
    } else {
      hide *;
      var rest, p := ps[..|ps| - 1], ps[|ps| - 1];
      assert ps == rest + [p] && p in ps && forall q | q in rest :: q in ps;
      NoClashRest(kind, rest, p);
      starts := DoubleStarts(kind, rest, key, target, periods, unavailable);
      starts := NextStart(kind, rest, p, key, target, periods, unavailable, starts);
    }
  }

  lemma DoubleLoadAppend(rest: seq<Placement>, p: Placement, target: Preflight.Target)
    ensures DoubleLoad(rest + [p], target) == DoubleLoad(rest, target) + if p.double && LessonHits(target, p) then 1 else 0
  {
    assert (rest + [p])[..|rest|] == rest;
  }

  lemma StillBooked(kind: Kind, rest: seq<Placement>, p: Placement, key: Id, periods: seq<Period>, starts: set<nat>)
    requires AllBooked(kind, rest, key, periods, starts)
    ensures AllBooked(kind, rest + [p], key, periods, starts)
  {
    hide Booked;
    forall s | s in starts
      ensures s + 1 < |periods| && Booked(kind, rest + [p], key, periods[s].id) && Booked(kind, rest + [p], key, periods[s + 1].id)
    {
      BookedMore(kind, rest, p, key, periods[s].id);
      BookedMore(kind, rest, p, key, periods[s + 1].id);
    }
  }

  /** Nobody has more double lessons than the greedy scan finds pairs. */
  lemma DoublesArePairs(problem: Problem, ps: seq<Placement>, kind: Kind, key: Id, target: Preflight.Target, unavailable: set<Id>)
    requires WellFormed(problem) && DistinctSlots(problem) && Witness(problem, ps) && NoClash(kind, ps)
    requires forall p | p in ps && LessonHits(target, p) :: key in Keys(kind, p) && forall per | per in p.periods :: per !in unavailable
    ensures Preflight.Demand(problem, problem.assignments, target, Preflight.DoubleBlocks) <= |Greedy(UsablePeriods(problem), 0, unavailable)|
  {
    var periods := UsablePeriods(problem);
    DoubleDemandIsMet(problem, ps, target);
    hide Schedule, PlainLesson, WellFormed, UsablePeriods, Greedy, Bookings, NoClash, Keys, LessonHits, SlotAt, DistinctSlots, WellTimed, Covered,
         DoubleLoad, Preflight.Demand, OpenPeriod;
    forall p | p in ps && LessonHits(target, p)
      ensures Placed(kind, p, key, periods, unavailable)
    {
      PlainFacts(problem, p);
      if p.double {
        var i := DoubleHasSlot(problem, p, unavailable);
      }
    }
    var starts := DoubleStarts(kind, ps, key, target, periods, unavailable);
    GreedyIsMost(periods, unavailable);
  }

  // ----- loads within capacity

  /** The identifiers of the periods that are not in `unavailable`. */
  function AvailableIds(periods: seq<Period>, unavailable: set<Id>): seq<Id> {
    if periods == [] then []
    else
      var rest, last := AvailableIds(periods[..|periods| - 1], unavailable), periods[|periods| - 1].id;
      if last in unavailable then rest else rest + [last]
  }

  lemma {:induction false} AvailableIdsFacts(periods: seq<Period>, unavailable: set<Id>)
    requires forall i, j | 0 <= i < j < |periods| :: periods[i].id != periods[j].id
    ensures |AvailableIds(periods, unavailable)| == AvailableCount(periods, unavailable) && Distinct(AvailableIds(periods, unavailable))
    ensures forall p | p in periods && p.id !in unavailable :: p.id in AvailableIds(periods, unavailable)
    ensures forall id | id in AvailableIds(periods, unavailable) :: exists p | p in periods :: p.id == id
  {
    if periods != [] {
      var rest, last := periods[..|periods| - 1], periods[|periods| - 1];
      assert periods == rest + [last];
      AvailableIdsFacts(rest, unavailable);
      forall p | p in rest
        ensures p.id != last.id
      {
        var i :| 0 <= i < |rest| && rest[i] == p;
        assert periods[i] == p && periods[|rest|] == last;
      }
      assert last.id !in AvailableIds(rest, unavailable);
    }
  }

  lemma {:induction false} KeyLoadIsLoad(kind: Kind, ps: seq<Placement>, key: Id, target: Preflight.Target)
    requires forall p | p in ps :: key in Keys(kind, p) <==> LessonHits(target, p)
    ensures KeyLoad(kind, ps, key) == Load(ps, target)
  {
    hide Keys, LessonHits;
    if ps != [] {
      assert ps[|ps| - 1] in ps;
      KeyLoadIsLoad(kind, ps[..|ps| - 1], key, target);
    }
  }

  /** A set of identifiers within a list is no larger than the list. */
  lemma {:induction false} WithinList(some: set<Id>, list: seq<Id>)
    requires forall x | x in some :: x in list
    ensures |some| <= |list|
  {
    if list == [] {
      assert some == {};
    } else {
      var last := list[|list| - 1];
      assert list == list[..|list| - 1] + [last];
      WithinList(some - {last}, list[..|list| - 1]);
      if last in some {
        assert some == (some - {last}) + {last};
      } else {
        assert some == some - {last};
      }
    }
  }

  /** Two sets of the same size, one within the other, are equal. */
  lemma SameSizeWithin(some: set<Id>, list: seq<Id>)
    requires Distinct(list) && forall x | x in some :: x in list
    ensures |some| == |list| <==> forall x | x in list :: x in some
  {
    var all := set x | x in list;
    DistinctSetSize(list, all);
    Matching.SplitSize(all, some);
  }

  /** A cohort's lessons fit into the periods it is available for, and there are as many as usable periods exactly when it has a
      lesson in each of them. */
  lemma CohortLoadFits(problem: Problem, ps: seq<Placement>, c: Id)
    requires WellFormed(problem) && Witness(problem, ps) && c in problem.cohorts
    ensures Load(ps, Preflight.OfCohort(c)) <= AvailableCount(UsablePeriods(problem), problem.cohorts[c].unavailable)
    ensures Load(ps, Preflight.OfCohort(c)) == |UsablePeriods(problem)| <==> Filled(problem, ps, c)
  {
    var periods, unavailable := UsablePeriods(problem), problem.cohorts[c].unavailable;
    var booked := BookedPeriods(CohortUse, ps, c);
    Engine.UsableFacts(problem);
    CohortKeyLoad(problem, ps, c);
    hide Schedule, PlainLesson, WellFormed, UsablePeriods, BookedPeriods, AvailableCount, SoundLesson, WellTimed, NoClash;
    AvailableIdsFacts(periods, unavailable);
    AvailableIdsFacts(periods, {});
    AllAvailable(periods);
    BookedPeriodsMember(CohortUse, ps, c);
    hide Booked, AvailableIds, Witness;
    forall per | per in booked
      ensures per in AvailableIds(periods, unavailable) && per in AvailableIds(periods, {})
    {
      BookedIsAvailable(problem, ps, c, per);
    }
    WithinList(booked, AvailableIds(periods, unavailable));
    SameSizeWithin(booked, AvailableIds(periods, {}));
  }

  lemma CohortKeyLoad(problem: Problem, ps: seq<Placement>, c: Id)
    requires WellFormed(problem) && Witness(problem, ps)
    ensures |BookedPeriods(CohortUse, ps, c)| == Load(ps, Preflight.OfCohort(c))
  {
    hide Schedule, PlainLesson, WellFormed, SoundLesson, NoClash, Keys;
    forall p | p in ps
      ensures c in Keys(CohortUse, p) <==> LessonHits(Preflight.OfCohort(c), p)
    {
      PlainFacts(problem, p);
    }
    KeyLoadIsLoad(CohortUse, ps, c, Preflight.OfCohort(c));
    ExclusiveLoad(CohortUse, ps, c);
  }

  lemma BookedIsAvailable(problem: Problem, ps: seq<Placement>, c: Id, per: Id)
    requires WellFormed(problem) && Witness(problem, ps) && c in problem.cohorts && Booked(CohortUse, ps, c, per)
    ensures per !in problem.cohorts[c].unavailable && exists p | p in UsablePeriods(problem) :: p.id == per
  {
    hide Schedule, PlainLesson, WellFormed, SoundLesson, NoClash, Bookings, Covered;
    var p :| p in ps && c in Keys(CohortUse, p) && per in p.periods;
    PlainFacts(problem, p);
    assert OpenPeriod(problem, p, per) && c in CohortIds(p);
    assert Engine.UsableId(problem, per);
    Engine.UsableIsListed(problem, per);
  }

  // ----- resources

  /** The bookings of `r` in the listed periods. */
  ghost function RowSum(m: multiset<(Id, Id)>, r: Id, ids: seq<Id>): nat {
    if ids == [] then 0 else RowSum(m, r, ids[..|ids| - 1]) + m[(r, ids[|ids| - 1])]
  }

  lemma {:induction false} RowSumAdd(a: multiset<(Id, Id)>, b: multiset<(Id, Id)>, r: Id, ids: seq<Id>)
    ensures RowSum(a + b, r, ids) == RowSum(a, r, ids) + RowSum(b, r, ids)
  {
    if ids != [] {
      RowSumAdd(a, b, r, ids[..|ids| - 1]);
    }
  }

  lemma {:induction false} RowSumOne(r: Id, per: Id, ids: seq<Id>)
    requires Distinct(ids)
    ensures RowSum(multiset{(r, per)}, r, ids) == if per in ids then 1 else 0
  {
    if ids != [] {
      var rest, last := ids[..|ids| - 1], ids[|ids| - 1];
      assert ids == rest + [last];
      RowSumOne(r, per, rest);
      assert last !in rest;
    }
  }

  lemma {:induction false} RowSumNone(m: multiset<(Id, Id)>, r: Id, ids: seq<Id>)
    requires forall per: Id :: m[(r, per)] == 0
    ensures RowSum(m, r, ids) == 0
  {
    if ids != [] {
      RowSumNone(m, r, ids[..|ids| - 1]);
    }
  }

  lemma {:induction false} RowSumPairs(r: Id, periods: seq<Id>, ids: seq<Id>)
    requires Distinct(ids) && forall per | per in periods :: per in ids
    ensures RowSum(Pairs([r], periods), r, ids) == |periods|
  {
    if periods == [] {
      RowSumNone(multiset{}, r, ids);
    } else {
      var rest: seq<Id> := periods[..|periods| - 1];
      var last := periods[|periods| - 1];
      assert periods == rest + [last];
      RowSumPairs(r, rest, ids);
      RowSumAdd(Pairs([r], rest), At([r], last), r, ids);
      assert At([r], last) == multiset{(r, last)};
      RowSumOne(r, last, ids);
    }
  }

  lemma {:induction false} ResourceRow(ps: seq<Placement>, r: Id, ids: seq<Id>)
    requires Distinct(ids) && r != NO_ID
    requires forall p, per | p in ps && p.resource == r && per in p.periods :: per in ids
    ensures Load(ps, Preflight.OfResource(r)) == RowSum(Bookings(ResourceUse, ps), r, ids)
  {
    if ps == [] {
      RowSumNone(multiset{}, r, ids);
    } else {
      var rest, last := ps[..|ps| - 1], ps[|ps| - 1];
      assert ps == rest + [last] && last in ps;
      ResourceRow(rest, r, ids);
      var added := Pairs(Keys(ResourceUse, last), last.periods);
      RowSumAdd(Bookings(ResourceUse, rest), added, r, ids);
      if last.resource == r {
        RowSumPairs(r, last.periods, ids);
      } else {
        forall per: Id
          ensures added[(r, per)] == 0
        {
          PairsMember(Keys(ResourceUse, last), last.periods, r, per);
        }
        RowSumNone(added, r, ids);
      }
    }
  }

  lemma {:induction false} RowSumBound(m: multiset<(Id, Id)>, r: Id, ids: seq<Id>, capacity: int)
    requires forall per: Id :: m[(r, per)] <= capacity
    ensures RowSum(m, r, ids) <= |ids| * capacity
  {
    if ids != [] {
      RowSumBound(m, r, ids[..|ids| - 1], capacity);
    }
  }

  lemma ResourcePeriods(problem: Problem, ps: seq<Placement>, r: Id, p: Placement, per: Id)
    requires WellFormed(problem) && Witness(problem, ps) && r in problem.resources && r != NO_ID
    requires p in ps && p.resource == r && per in p.periods
    ensures per in AvailableIds(UsablePeriods(problem), problem.resources[r].unavailable)
  {
    var periods := UsablePeriods(problem);
    Engine.UsableFacts(problem);
    AvailableIdsFacts(periods, problem.resources[r].unavailable);
    hide Schedule, PlainLesson, WellFormed, UsablePeriods, NoClash, Bookings, Covered, AvailableIds;
    PlainFacts(problem, p);
    assert OpenPeriod(problem, p, per) && OpenResource(problem, r, per);
    assert Engine.UsableId(problem, per);
    Engine.UsableIsListed(problem, per);
    var j :| 0 <= j < |periods| && periods[j].id == per;
    assert periods[j] in periods;
  }

  /** A resource's lessons fit into its capacity. */
  lemma ResourceLoadFits(problem: Problem, ps: seq<Placement>, r: Id)
    requires WellFormed(problem) && Witness(problem, ps) && r in problem.resources && r != NO_ID
    ensures Load(ps, Preflight.OfResource(r))
         <= AvailableCount(UsablePeriods(problem), problem.resources[r].unavailable) * Capacity(problem, r)
  {
    var periods, unavailable := UsablePeriods(problem), problem.resources[r].unavailable;
    var ids, m := AvailableIds(periods, unavailable), Bookings(ResourceUse, ps);
    Engine.UsableFacts(problem);
    AvailableIdsFacts(periods, unavailable);
    hide Schedule, PlainLesson, WellFormed, UsablePeriods, NoClash, Bookings, Covered, AvailableIds, Capacity, SoundLesson, AvailableCount;
    forall p, per | p in ps && p.resource == r && per in p.periods
      ensures per in ids
    {
      ResourcePeriods(problem, ps, r, p, per);
    }
    ResourceRow(ps, r, ids);
    forall per: Id
      ensures m[(r, per)] <= Capacity(problem, r)
    {
      assert m[(r, per)] <= Capacity(problem, (r, per).0);
    }
    RowSumBound(m, r, ids, Capacity(problem, r));
  }

  lemma ResourceExists(problem: Problem, ps: seq<Placement>, r: Id)
    requires WellFormed(problem) && Witness(problem, ps) && Preflight.Demanded(problem, problem.assignments, Preflight.OfResource(r))
    ensures r != NO_ID && r in problem.resources && problem.resources[r].workspace == problem.workspace
  {
    hide Schedule, WellFormed, Witness, QualifiedTeacher, AuthorizedCover, Counted, PrimaryId, WellTimed, OpenPeriod, LocalCohort, EligibleLearner;
    var a :| a in problem.assignments && Preflight.Bookable(problem, a) && Preflight.Hits(Preflight.OfResource(r), a);
    var p := LessonFor(problem, ps, a);
    assert p.periods[0] in p.periods;
    assert OpenResource(problem, r, p.periods[0]);
  }

  // ----- the capacity of all teachers

  /** The periods of the lessons of these teachers. */
  function LoadWithin(ps: seq<Placement>, ids: set<Id>): nat {
    if ps == [] then 0
    else LoadWithin(ps[..|ps| - 1], ids) + if ps[|ps| - 1].teacher in ids then |ps[|ps| - 1].periods| else 0
  }

  lemma {:induction false} LoadWithinSplit(ps: seq<Placement>, ids: set<Id>, t: Id)
    requires t in ids
    ensures LoadWithin(ps, ids) == LoadWithin(ps, ids - {t}) + TeacherLoad(ps, t)
  {
    if ps != [] {
      LoadWithinSplit(ps[..|ps| - 1], ids, t);
    }
  }

  lemma {:induction false} LoadWithinNobody(ps: seq<Placement>)
    ensures LoadWithin(ps, {}) == 0
  {
    if ps != [] {
      LoadWithinNobody(ps[..|ps| - 1]);
    }
  }

  lemma {:induction false} LoadWithinCapacities(problem: Problem, ps: seq<Placement>, ids: set<Id>)
    requires ids <= problem.teachers.Keys
    requires forall t | t in problem.teachers :: TeacherLoad(ps, t) <= WorkloadCap(problem, problem.teachers[t])
    ensures LoadWithin(ps, ids) <= Preflight.Capacities(problem, ids)
    decreases ids
  {
    hide TeacherLoad, WorkloadCap;
    if ids == {} {
      LoadWithinNobody(ps);
    } else {
      var t :| t in ids;
      LoadWithinCapacities(problem, ps, ids - {t});
      LoadWithinSplit(ps, ids, t);
      Preflight.CapacitiesRemove(problem, ids, t);
    }
  }

  lemma {:induction false} LoadWithinAll(ps: seq<Placement>, ids: set<Id>)
    requires forall p | p in ps :: p.teacher in ids
    ensures LoadWithin(ps, ids) == Load(ps, Preflight.OfAll)
  {
    if ps != [] {
      assert ps[|ps| - 1] in ps;
      LoadWithinAll(ps[..|ps| - 1], ids);
    }
  }

  lemma TotalLoadFits(problem: Problem, ps: seq<Placement>)
    requires WellFormed(problem) && Witness(problem, ps)
    ensures Load(ps, Preflight.OfAll) <= Preflight.Capacities(problem, Preflight.LocalTeachers(problem))
  {
    var ids := Preflight.LocalTeachers(problem);
    hide Schedule, PlainLesson, WellFormed, NoClash, Bookings, Covered, TeacherLoad, WorkloadCap;
    forall p | p in ps
      ensures p.teacher in ids
    {
      assert SoundLesson(problem, p) && QualifiedTeacher(problem, p);
    }
    LoadWithinCapacities(problem, ps, ids);
    LoadWithinAll(ps, ids);
  }

  // ----- simultaneous coverage

  /** The lessons of a period, as edges. */
  function Taught(ps: seq<Placement>, per: Id): seq<Matching.Edge> {
    if ps == [] then []
    else
      var rest, last := Taught(ps[..|ps| - 1], per), ps[|ps| - 1];
      if per in last.periods then rest + [Matching.Edge(last.teacher, last.cohort, last.assignment)] else rest
  }

  lemma {:induction false} TaughtMember(ps: seq<Placement>, per: Id)
    ensures forall p | p in ps && per in p.periods :: Matching.Edge(p.teacher, p.cohort, p.assignment) in Taught(ps, per)
    ensures forall e | e in Taught(ps, per) :: exists p | p in ps :: per in p.periods && e == Matching.Edge(p.teacher, p.cohort, p.assignment)
  {
    if ps != [] {
      assert ps == ps[..|ps| - 1] + [ps[|ps| - 1]];
      TaughtMember(ps[..|ps| - 1], per);
    }
  }

  lemma {:induction false} TaughtDisjoint(ps: seq<Placement>, per: Id)
    requires NoClash(TeacherUse, ps) && NoClash(CohortUse, ps) && forall p | p in ps :: p.cohort in Keys(CohortUse, p)
    ensures forall i, j | 0 <= i < j < |Taught(ps, per)| ::
              Taught(ps, per)[i].left != Taught(ps, per)[j].left && Taught(ps, per)[i].right != Taught(ps, per)[j].right
  {
    hide NoClash, Keys;
    if ps != [] {
      var rest, last := ps[..|ps| - 1], ps[|ps| - 1];
      assert ps == rest + [last];
      assert last in ps && forall p | p in rest :: p in ps;
      NoClashRest(TeacherUse, rest, last);
      NoClashRest(CohortUse, rest, last);
      TaughtDisjoint(rest, per);
      TaughtMember(rest, per);
      if per in last.periods {
        forall e | e in Taught(rest, per)
          ensures e.left != last.teacher && e.right != last.cohort
        {
          LastLesson(rest, last, per, e);
        }
        assert forall i | 0 <= i < |Taught(rest, per)| :: Taught(rest, per)[i] in Taught(rest, per);
      }
    }
  }

  lemma LastLesson(rest: seq<Placement>, last: Placement, per: Id, e: Matching.Edge)
    requires NoClash(TeacherUse, rest + [last]) && NoClash(CohortUse, rest + [last]) && per in last.periods && e in Taught(rest, per)
    requires forall p | p in rest + [last] :: p.cohort in Keys(CohortUse, p)
    ensures e.left != last.teacher && e.right != last.cohort
  {
    TaughtMember(rest, per);
    var p :| p in rest && per in p.periods && e == Matching.Edge(p.teacher, p.cohort, p.assignment);
    NoClashStep(TeacherUse, rest, last);
    NoClashStep(CohortUse, rest, last);
    assert p in rest + [last] && last in rest + [last];
    hide NoClash;
    assert last.teacher in Keys(TeacherUse, last);
    assert !Booked(TeacherUse, rest, last.teacher, per) && !Booked(CohortUse, rest, last.cohort, per);
  }

  lemma {:induction false} EligibleIsListed(problem: Problem, list: seq<Assignment>, per: Id, a: Assignment)
    requires a in list && Preflight.Eligible(problem, a, per)
    ensures Matching.Edge(a.teacher, a.cohort, a.id) in Preflight.EligibleEdges(problem, list, per)
  {
    hide Preflight.Eligible;
    var rest, last := list[..|list| - 1], list[|list| - 1];
    assert list == rest + [last];
    if a in rest {
      EligibleIsListed(problem, rest, per, a);
    }
  }

  lemma LessonIsEligible(problem: Problem, p: Placement, per: Id)
    requires WellFormed(problem) && SoundLesson(problem, p) && PlainLesson(problem, p) && per in p.periods
    ensures Matching.Edge(p.teacher, p.cohort, p.assignment) in Preflight.EligibleEdges(problem, problem.assignments, per)
    ensures p.teacher in Preflight.TeachersAvailable(problem, per)
  {
    PlainFacts(problem, p);
    hide Schedule, WellFormed, Preflight.EligibleEdges;
    var a := Schedule(problem)[p.assignment];
    assert OpenPeriod(problem, p, per) && a.cohort in CohortIds(p);
    EligibleIsListed(problem, problem.assignments, per, a);
  }

  /** Where full coverage is met, the lessons of a usable period are a simultaneous choice for every cohort. */
  lemma PeriodIsCovered(problem: Problem, ps: seq<Placement>, per: Period)
    requires WellFormed(problem) && Witness(problem, ps) && FullyTaught(problem, ps) && per in UsablePeriods(problem)
    ensures TeacherMatching.IsDisjointChoice(Preflight.EligibleEdges(problem, problem.assignments, per.id), Taught(ps, per.id))
    ensures |Preflight.CohortsRequired(problem, per.id)| <= |Taught(ps, per.id)| <= |Preflight.TeachersAvailable(problem, per.id)|
  {
    var choice := Taught(ps, per.id);
    hide Schedule, WellFormed, PlainLesson, SoundLesson, NoClash, UsablePeriods, Keys, Taught, Preflight.EligibleEdges, Bookings,
         Preflight.TeachersAvailable, LocalCohort, FullyTaught, CohortBlocked;
    TaughtMember(ps, per.id);
    forall p | p in ps
      ensures Keys(CohortUse, p) == [p.cohort]
    {
      PlainFacts(problem, p);
    }
    TaughtDisjoint(ps, per.id);
    forall e | e in choice
      ensures e in Preflight.EligibleEdges(problem, problem.assignments, per.id) && e.left in Preflight.TeachersAvailable(problem, per.id)
    {
      var p :| p in ps && per.id in p.periods && e == Matching.Edge(p.teacher, p.cohort, p.assignment);
      LessonIsEligible(problem, p, per.id);
    }
    forall c | c in Preflight.CohortsRequired(problem, per.id)
      ensures exists e | e in choice :: e.right == c
    {
      CohortHasEdge(problem, ps, per, c);
    }
    RightsCover(choice, Preflight.CohortsRequired(problem, per.id), Preflight.TeachersAvailable(problem, per.id));
  }

  lemma CohortHasEdge(problem: Problem, ps: seq<Placement>, per: Period, c: Id)
    requires WellFormed(problem) && Witness(problem, ps) && FullyTaught(problem, ps) && per in UsablePeriods(problem)
    requires LocalCohort(problem, c) && !CohortBlocked(problem, c, per.id)
    ensures exists e | e in Taught(ps, per.id) :: e.right == c
  {
    hide Schedule, WellFormed, PlainLesson, SoundLesson, NoClash, UsablePeriods, Taught, Bookings, Keys, Preflight.Demanded, CohortBlocked;
    assert Filled(problem, ps, c);
    var p :| p in ps && c in Keys(CohortUse, p) && per.id in p.periods;
    PlainFacts(problem, p);
    TaughtMember(ps, per.id);
    assert Matching.Edge(p.teacher, p.cohort, p.assignment).right == c;
  }

  /** Disjoint edges between them have as many lefts and rights as there are edges. */
  lemma RightsCover(choice: seq<Matching.Edge>, rights: set<Id>, lefts: set<Id>)
    requires forall i, j | 0 <= i < j < |choice| :: choice[i].left != choice[j].left && choice[i].right != choice[j].right
    requires forall r | r in rights :: exists e | e in choice :: e.right == r
    requires forall e | e in choice :: e.left in lefts
    ensures |rights| <= |choice| <= |lefts|
  {
    var r: seq<Id> := seq(|choice|, i requires 0 <= i < |choice| => choice[i].right);
    var l: seq<Id> := seq(|choice|, i requires 0 <= i < |choice| => choice[i].left);
    forall x | x in rights
      ensures x in r
    {
      var e :| e in choice && e.right == x;
      var i :| 0 <= i < |choice| && choice[i] == e;
      assert r[i] == x;
    }
    WithinList(rights, r);
    var used := set x | x in l;
    DistinctSetSize(l, used);
    forall x | x in used
      ensures x in lefts
    {
      var i :| 0 <= i < |l| && l[i] == x;
      assert choice[i] in choice;
    }
    Matching.SplitSize(lefts, used);
    assert used <= lefts;
  }

  // ----- every issue is refuted

  lemma TeacherIsFine(problem: Problem, ps: seq<Placement>, t: Id, code: Preflight.Code)
    requires WellFormed(problem) && DistinctSlots(problem) && Witness(problem, ps)
    ensures !Preflight.TeacherRaises(problem, t, code)
  {
    if t in problem.teachers {
      hide Schedule, PlainLesson, WellFormed, NoClash, Bookings, Covered, TeacherLoad, WorkloadCap, Load, Greedy, UsablePeriods, Preflight.Demand,
           Preflight.Demanded, SoundLesson, Keys;
      DemandIsLoad(problem, ps, Preflight.OfTeacher(t));
      TeacherLoadIsLoad(ps, t);
      forall p | p in ps && LessonHits(Preflight.OfTeacher(t), p)
        ensures t in Keys(TeacherUse, p) && forall per | per in p.periods :: per !in problem.teachers[t].unavailable
      {
        TeacherKeys(problem, p);
      }
      DoublesArePairs(problem, ps, TeacherUse, t, Preflight.OfTeacher(t), problem.teachers[t].unavailable);
    }
  }

  lemma TeacherKeys(problem: Problem, p: Placement)
    requires SoundLesson(problem, p)
    ensures p.teacher in Keys(TeacherUse, p)
    ensures p.teacher in problem.teachers && forall per | per in p.periods :: per !in problem.teachers[p.teacher].unavailable
  {
    hide CohortBlocked, Counted, AuthorizedCover, PrimaryId, WellTimed, LocalCohort, EligibleLearner, OpenResource;
    forall per | per in p.periods
      ensures per !in problem.teachers[p.teacher].unavailable
    {
      assert OpenPeriod(problem, p, per);
    }
  }

  lemma CohortKeysOf(problem: Problem, p: Placement, c: Id)
    requires WellFormed(problem) && SoundLesson(problem, p) && PlainLesson(problem, p) && p.cohort == c && c in problem.cohorts
    ensures c in Keys(CohortUse, p) && forall per | per in p.periods :: per !in problem.cohorts[c].unavailable
  {
    hide Schedule, WellFormed, SoundLesson, PlainLesson;
    PlainFacts(problem, p);
    hide Keys;
    forall per | per in p.periods
      ensures per !in problem.cohorts[c].unavailable
    {
      assert OpenPeriod(problem, p, per) && c in CohortIds(p);
    }
  }

  lemma CohortIsFine(problem: Problem, ps: seq<Placement>, c: Id, code: Preflight.Code)
    requires WellFormed(problem) && DistinctSlots(problem) && Witness(problem, ps) && code != Preflight.CoverageMismatch
    ensures !Preflight.CohortRaises(problem, c, code)
  {
    if Preflight.Demanded(problem, problem.assignments, Preflight.OfCohort(c)) {
      assert c in problem.cohorts;
      hide WellFormed, Witness, Load, Greedy, UsablePeriods, AvailableCount, Preflight.Demand, Preflight.Demanded, DistinctSlots;
      DemandIsLoad(problem, ps, Preflight.OfCohort(c));
      CohortLoadFits(problem, ps, c);
      CohortDoubles(problem, ps, c);
    }
  }

  lemma CohortDoubles(problem: Problem, ps: seq<Placement>, c: Id)
    requires WellFormed(problem) && DistinctSlots(problem) && Witness(problem, ps) && c in problem.cohorts
    ensures Preflight.Demand(problem, problem.assignments, Preflight.OfCohort(c), Preflight.DoubleBlocks)
         <= |Greedy(UsablePeriods(problem), 0, problem.cohorts[c].unavailable)|
  {
    hide Schedule, PlainLesson, WellFormed, NoClash, Bookings, Covered, Greedy, UsablePeriods, Preflight.Demand, SoundLesson, Keys, DistinctSlots;
    forall p | p in ps && LessonHits(Preflight.OfCohort(c), p)
      ensures c in Keys(CohortUse, p) && forall per | per in p.periods :: per !in problem.cohorts[c].unavailable
    {
      CohortKeysOf(problem, p, c);
    }
    DoublesArePairs(problem, ps, CohortUse, c, Preflight.OfCohort(c), problem.cohorts[c].unavailable);
  }

  /** A cohort's demand disagrees with full coverage exactly when the cohort has a usable period without a lesson. */
  lemma CohortMismatch(problem: Problem, ps: seq<Placement>, c: Id)
    requires WellFormed(problem) && Witness(problem, ps)
    ensures Preflight.CohortRaises(problem, c, Preflight.CoverageMismatch)
       <==> problem.fullCoverage && Preflight.Demanded(problem, problem.assignments, Preflight.OfCohort(c)) && !Filled(problem, ps, c)
  {
    hide *;
    MismatchMeans(problem, c);
    if Preflight.Demanded(problem, problem.assignments, Preflight.OfCohort(c)) {
      DemandedIsLocal(problem, c);
      DemandIsLoad(problem, ps, Preflight.OfCohort(c));
      CohortLoadFits(problem, ps, c);
    }
  }

  lemma MismatchMeans(problem: Problem, c: Id)
    ensures Preflight.CohortRaises(problem, c, Preflight.CoverageMismatch) <==>
              && Preflight.Demanded(problem, problem.assignments, Preflight.OfCohort(c)) && c in problem.cohorts && problem.fullCoverage
              && Preflight.Demand(problem, problem.assignments, Preflight.OfCohort(c), Preflight.WeeklyPeriods) != |UsablePeriods(problem)|
  {
    hide Preflight.Demanded, Preflight.Demand, UsablePeriods;
  }

  lemma DemandedIsLocal(problem: Problem, c: Id)
    requires Preflight.Demanded(problem, problem.assignments, Preflight.OfCohort(c))
    ensures LocalCohort(problem, c) && c in problem.cohorts
  {
  }

  lemma ResourceIsFine(problem: Problem, ps: seq<Placement>, r: Id, code: Preflight.Code)
    requires WellFormed(problem) && Witness(problem, ps)
    ensures !Preflight.ResourceRaises(problem, r, code)
  {
    if Preflight.Demanded(problem, problem.assignments, Preflight.OfResource(r)) {
      hide WellFormed, Witness, Preflight.Demand, Preflight.Demanded, UsablePeriods, Capacity, AvailableCount;
      ResourceExists(problem, ps, r);
      DemandIsLoad(problem, ps, Preflight.OfResource(r));
      ResourceLoadFits(problem, ps, r);
    }
  }

  lemma PeriodIsFine(problem: Problem, ps: seq<Placement>, per: Period, code: Preflight.Code)
    requires WellFormed(problem) && Witness(problem, ps) && per in UsablePeriods(problem)
    requires problem.fullCoverage ==> FullyTaught(problem, ps)
    ensures !Preflight.PeriodRaises(problem, per.id, code)
  {
    hide WellFormed, Witness, UsablePeriods, FullyTaught, Preflight.EligibleEdges, Preflight.CohortsRequired, Preflight.TeachersAvailable;
    if problem.fullCoverage {
      PeriodIsCovered(problem, ps, per);
    }
  }

  /** A problem that can be solved, and is fully taught where coverage is asked for, gives no cause for an issue. */
  lemma IssueIsRefuted(problem: Problem, ps: seq<Placement>, i: Preflight.Issue)
    requires WellFormed(problem) && Scoped(problem) && DistinctSlots(problem) && Witness(problem, ps)
    requires problem.fullCoverage ==> FullyTaught(problem, ps)
    ensures !Preflight.Raises(problem, i)
  {
    forall a | a in problem.assignments
      ensures !Preflight.AssignmentRaises(problem, a, i)
    {
      AssignmentIsFine(problem, ps, a, i);
    }
    TeacherIsFine(problem, ps, i.entity, i.code);
    if i.code != Preflight.CoverageMismatch {
      CohortIsFine(problem, ps, i.entity, i.code);
    }
    CohortIsMatched(problem, ps, i.entity);
    ResourceIsFine(problem, ps, i.entity, i.code);
    forall p | p in UsablePeriods(problem)
      ensures !Preflight.PeriodRaises(problem, p.id, i.code)
    {
      PeriodIsFine(problem, ps, p, i.code);
    }
    DemandIsLoad(problem, ps, Preflight.OfAll);
    TotalLoadFits(problem, ps);
    hide WellFormed, Witness, UsablePeriods, Preflight.Demand, Preflight.Capacities, Preflight.AssignmentRaises, Preflight.TeacherRaises,
         Preflight.CohortRaises, Preflight.ResourceRaises, Preflight.PeriodRaises, Load, DistinctSlots, FullyTaught;
  }

  lemma CohortIsMatched(problem: Problem, ps: seq<Placement>, c: Id)
    requires WellFormed(problem) && Witness(problem, ps)
    requires problem.fullCoverage ==> FullyTaught(problem, ps)
    ensures !Preflight.CohortRaises(problem, c, Preflight.CoverageMismatch)
  {
    CohortMismatch(problem, ps, c);
    hide WellFormed, Witness, Filled, NeverFree;
    if Preflight.Demanded(problem, problem.assignments, Preflight.OfCohort(c)) {
      assert LocalCohort(problem, c);
    }
  }

  // ----- full coverage with cohorts that are not always available

  lemma {:induction false} EdgeOrigin(problem: Problem, list: seq<Assignment>, per: Id, e: Matching.Edge) returns (a: Assignment)
    requires e in Preflight.EligibleEdges(problem, list, per)
    ensures a in list && Preflight.Eligible(problem, a, per) && e == Matching.Edge(a.teacher, a.cohort, a.id)
  {
    var rest, last := list[..|list| - 1], list[|list| - 1];
    assert list == rest + [last];
    if Preflight.Eligible(problem, last, per) && e == Matching.Edge(last.teacher, last.cohort, last.id) {
      a := last;
    } else {
      a := EdgeOrigin(problem, rest, per, e);
    }
  }

  lemma EdgeIsRequired(problem: Problem, ps: seq<Placement>, per: Id, e: Matching.Edge)
    requires WellFormed(problem) && Witness(problem, ps) && e in Preflight.EligibleEdges(problem, problem.assignments, per)
    ensures e.right in Preflight.CohortsRequired(problem, per)
    ensures Preflight.Demanded(problem, problem.assignments, Preflight.OfCohort(e.right))
  {
    hide Schedule, WellFormed, Preflight.EligibleEdges, SoundLesson, PlainLesson, Witness;
    var a := EdgeOrigin(problem, problem.assignments, per, e);
    var p := LessonFor(problem, ps, a);
    PlainFacts(problem, p);
    assert Preflight.Bookable(problem, a) && Preflight.Hits(Preflight.OfCohort(a.cohort), a);
  }

  /** A cohort without demand that is available in a usable period makes the preflight report a shortage. */
  lemma UndemandedIsShort(problem: Problem, ps: seq<Placement>, c: Id, per: Period)
    requires WellFormed(problem) && Witness(problem, ps) && problem.fullCoverage && per in UsablePeriods(problem)
    requires LocalCohort(problem, c) && !CohortBlocked(problem, c, per.id)
    requires !Preflight.Demanded(problem, problem.assignments, Preflight.OfCohort(c))
    ensures Preflight.PeriodRaises(problem, per.id, Preflight.EligibilityShortage)
  {
    var edges, required := Preflight.EligibleEdges(problem, problem.assignments, per.id), Preflight.CohortsRequired(problem, per.id);
    assert c in required;
    hide WellFormed, Witness, UsablePeriods, Preflight.EligibleEdges, Preflight.CohortsRequired, Preflight.Demanded;
    forall choice: seq<Matching.Edge> | TeacherMatching.IsDisjointChoice(edges, choice)
      ensures |choice| < |required|
    {
      forall e: Matching.Edge | e in choice
        ensures e.right in required && e.right != c
      {
        EdgeIsRequired(problem, ps, per.id, e);
      }
      RightsWithin(choice, required, c);
    }
  }

  lemma RightsWithin(choice: seq<Matching.Edge>, required: set<Id>, c: Id)
    requires forall i, j | 0 <= i < j < |choice| :: choice[i].right != choice[j].right
    requires c in required && forall e | e in choice :: e.right in required && e.right != c
    ensures |choice| < |required|
  {
    var r: seq<Id> := seq(|choice|, i requires 0 <= i < |choice| => choice[i].right);
    var used := set x | x in r;
    DistinctSetSize(r, used);
    forall x | x in used
      ensures x in required && x != c
    {
      var i :| 0 <= i < |r| && r[i] == x;
      assert choice[i] in choice;
    }
    Matching.SplitSize(required, used);
    assert c in required - used && used <= required;
  }

  /** For a problem that can be solved, demand and coverage disagree exactly when some cohort with demand has a period without a
      lesson. */
  lemma MismatchIff(problem: Problem, ps: seq<Placement>)
    requires WellFormed(problem) && Witness(problem, ps)
    ensures (forall c :: !Preflight.Raises(problem, Preflight.Issue(Preflight.CoverageMismatch, c)))
       <==> (problem.fullCoverage ==>
               forall c | Preflight.Demanded(problem, problem.assignments, Preflight.OfCohort(c)) :: Filled(problem, ps, c))
  {
    hide WellFormed, Witness, Filled, Preflight.CohortRaises, Preflight.Demanded;
    forall c
      ensures Preflight.Raises(problem, Preflight.Issue(Preflight.CoverageMismatch, c))
         <==> problem.fullCoverage && Preflight.Demanded(problem, problem.assignments, Preflight.OfCohort(c)) && !Filled(problem, ps, c)
    {
      CohortMismatch(problem, ps, c);
    }
  }

  lemma NoCause(problem: Problem)
    requires Preflight.Feasible(problem)
    ensures forall c :: !Preflight.Raises(problem, Preflight.Issue(Preflight.CoverageMismatch, c))
    ensures forall per | per in UsablePeriods(problem) :: !Preflight.PeriodRaises(problem, per.id, Preflight.EligibilityShortage)
  {
    hide UsablePeriods, Preflight.PeriodRaises, Preflight.CohortRaises;
    forall per | per in UsablePeriods(problem)
      ensures !Preflight.PeriodRaises(problem, per.id, Preflight.EligibilityShortage)
    {
      assert !Preflight.Raises(problem, Preflight.Issue(Preflight.EligibilityShortage, per.id));
    }
  }

  lemma FeasibleIsTaught(problem: Problem, ps: seq<Placement>)
    requires WellFormed(problem) && Witness(problem, ps) && Preflight.Feasible(problem) && problem.fullCoverage
    ensures FullyTaught(problem, ps)
  {
    MismatchIff(problem, ps);
    NoCause(problem);
    hide WellFormed, Witness, Filled, Preflight.Demanded, UsablePeriods, Preflight.PeriodRaises, LocalCohort, CohortBlocked, Preflight.Feasible;
    forall c, per | LocalCohort(problem, c) && !Preflight.Demanded(problem, problem.assignments, Preflight.OfCohort(c)) && per in UsablePeriods(problem)
      ensures CohortBlocked(problem, c, per.id)
    {
      if !CohortBlocked(problem, c, per.id) {
        UndemandedIsShort(problem, ps, c, per);
      }
    }
  }

  /** The preflight of a problem that has a valid timetable of plain lessons: it is silent exactly when there is a scope and a week,
      and, if full coverage is asked for, every cohort with demand has a lesson in every usable period and no other cohort is ever
      available. */
  lemma FeasibleIff(problem: Problem, ps: seq<Placement>)
    requires WellFormed(problem) && DistinctSlots(problem) && Witness(problem, ps)
    ensures Preflight.Feasible(problem) <==> Scoped(problem) && (problem.fullCoverage ==> FullyTaught(problem, ps))
  {
    if Preflight.Feasible(problem) {
      assert !Preflight.Raises(problem, Preflight.Issue(Preflight.MissingScope, NO_ID));
      assert !Preflight.Raises(problem, Preflight.Issue(Preflight.NoUsablePeriods, NO_ID));
      hide WellFormed, DistinctSlots, Witness, FullyTaught, UsablePeriods;
      if problem.fullCoverage {
        FeasibleIsTaught(problem, ps);
      }
    } else if Scoped(problem) && (problem.fullCoverage ==> FullyTaught(problem, ps)) {
      hide WellFormed, DistinctSlots, Witness, FullyTaught, UsablePeriods, Preflight.Raises, Scoped;
      forall i
        ensures !Preflight.Raises(problem, i)
      {
        IssueIsRefuted(problem, ps, i);
      }
      assert false;
    }
  }

  /** With mandatory periods and cohorts that are always available, every valid timetable teaches fully. */
  lemma SettledIsTaught(problem: Problem, ps: seq<Placement>)
    requires WellFormed(problem) && Settled(problem) && Witness(problem, ps) && problem.fullCoverage
    ensures FullyTaught(problem, ps) && Solution(problem, ps)
  {
    hide Schedule, WellFormed, PlainLesson, SoundLesson, NoClash, UsablePeriods, Bookings, Preflight.Demanded, LocalCohort, Booked;
    forall c | LocalCohort(problem, c)
      ensures Filled(problem, ps, c)
      ensures Preflight.Demanded(problem, problem.assignments, Preflight.OfCohort(c)) || NeverFree(problem, c)
    {
      forall p | p in UsablePeriods(problem)
        ensures Booked(CohortUse, ps, c, p.id)
      {
        assert CoveredOne(Bookings(CohortUse, ps), UsablePeriods(problem), c, CohortUnavailable(problem, c));
        BookedIffCounted(CohortUse, ps, c, p.id);
      }
      FilledIsDemanded(problem, ps, c);
    }
  }

  lemma FilledIsDemanded(problem: Problem, ps: seq<Placement>, c: Id)
    requires WellFormed(problem) && Scoped(problem) && Witness(problem, ps) && Filled(problem, ps, c)
    ensures Preflight.Demanded(problem, problem.assignments, Preflight.OfCohort(c))
  {
    hide Schedule, WellFormed, PlainLesson, SoundLesson, NoClash, UsablePeriods, Bookings, Keys;
    var per := UsablePeriods(problem)[0];
    assert per in UsablePeriods(problem) && Booked(CohortUse, ps, c, per.id);
    var p :| p in ps && c in Keys(CohortUse, p) && per.id in p.periods;
    PlainFacts(problem, p);
    var a := Schedule(problem)[p.assignment];
    assert Preflight.Bookable(problem, a) && Preflight.Hits(Preflight.OfCohort(c), a) && a in problem.assignments;
  }

  /** The preflight never rejects a solvable problem: where a valid timetable of plain lessons exists, it raises no issue. */
  lemma SolvableIsFeasible(problem: Problem, ps: seq<Placement>)
    requires WellFormed(problem) && Settled(problem) && Witness(problem, ps)
    ensures Preflight.Feasible(problem)
  {
    FeasibleIff(problem, ps);
    hide WellFormed, Witness, FullyTaught, Scoped, Preflight.Feasible, DistinctSlots;
    if problem.fullCoverage {
      SettledIsTaught(problem, ps);
    }
  }
}

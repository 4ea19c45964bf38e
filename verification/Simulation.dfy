/** `GenerateFeasibleSimulation`: a timetable for every size, and the problem it solves. */
module Simulation {
  import opened Model
  import opened Lessons
  import opened Ledger
  import opened Rotation
  import opened Validator
  import AttemptState
  import Agreement
  import Engine
  import Loads
  import Necessity
  import Preflight

  const WORKSPACE: Id := 1
  const YEAR: Id := 1
  const TERM: Id := 1

  // ----- the problem

  /** The position in the day, with a gap in the middle of the day. */
  function SlotIndex(profile: Profile, local: nat): nat {
    if local >= profile.perDay / 2 then local + 1 else local
  }

  function PeriodAt(profile: Profile, i: nat): Period
    requires profile.perDay > 0
  {
    Period(PeriodId(i), i / profile.perDay, SlotIndex(profile, i % profile.perDay), true, true, false)
  }

  function AssignmentOf(profile: Profile, key: Key): Assignment
    requires Sized(profile)
  {
    var weekly := |Slots(profile, key, Length(profile))|;
    Assignment(AssignmentId(profile, key), WORKSPACE, YEAR, TERM, TeacherId(key.teacher), CohortId(key.cohort), CohortSubjectId(profile, key),
               SubjectId(key.subject), NO_ID, weekly, if profile.double then weekly / 2 else 0, true, true)
  }

  /** The lesson takes place at all. */
  predicate Takes(profile: Profile, key: Key)
    requires Sized(profile)
  {
    Slots(profile, key, Length(profile)) != []
  }

  ghost predicate FineTeacher(profile: Profile, problem: Problem, t: nat)
    requires Sized(profile)
  {
    && TeacherId(t) in problem.teachers
    && var teacher := problem.teachers[TeacherId(t)];
       && teacher.workspace == WORKSPACE && teacher.workloadLimit == Length(profile)
       && (forall id: Id :: id in teacher.qualified <==> 1 <= id <= profile.subjects)
       && forall id: Id :: id in teacher.unavailable <==> Away(profile, t, id)
  }

  /** With limits, a teacher is away in every eleventh period, unless it has a lesson then. */
  ghost predicate Away(profile: Profile, t: nat, id: Id)
    requires Sized(profile)
  {
    profile.limits && 1 <= id <= Length(profile) && (id - 1) % 11 == 0 && !Busy(profile, t, id - 1)
  }

  /** Some cohort has the teacher in the period. */
  ghost predicate Busy(profile: Profile, t: nat, i: nat)
    requires Sized(profile)
  {
    exists c: nat :: c < profile.cohorts && KeyAt(profile, c, i).teacher == t
  }

  /** The lesson of cohort `c` in period `i` is among those of the first `m` cohorts, or of a period before the `n`-th. */
  ghost predicate ReachedAt(profile: Profile, n: nat, m: nat, c: nat, i: nat) {
    c < profile.cohorts && (i < n || (i == n && c < m))
  }

  ghost predicate Registered(profile: Profile, n: nat, m: nat, x: (Id, Id))
    requires Sized(profile)
  {
    exists c: nat, i: nat :: ReachedAt(profile, n, m, c, i) && x == (CohortId(c), CohortSubjectId(profile, KeyAt(profile, c, i)))
  }

  ghost predicate Used(profile: Profile, n: nat, m: nat, x: (Id, Id))
    requires Sized(profile)
  {
    exists c: nat, i: nat :: ReachedAt(profile, n, m, c, i) && x == (PeriodId(i), TeacherId(KeyAt(profile, c, i).teacher))
  }

  /** The assignments are the lessons that take place, each with as many weekly periods as it has slots. */
  ghost predicate FineAssignments(profile: Profile, problem: Problem)
    requires Sized(profile)
  {
    && DistinctIds(problem.assignments)
    && (forall a | a in problem.assignments :: exists key :: Proper(profile, key) && Takes(profile, key) && a == AssignmentOf(profile, key))
    && forall key | Proper(profile, key) && Takes(profile, key) :: AssignmentOf(profile, key) in problem.assignments
  }

  ghost predicate FinePeriods(profile: Profile, periods: seq<Period>) {
    |periods| == Length(profile) && forall i | 0 <= i < Length(profile) :: profile.perDay > 0 && periods[i] == PeriodAt(profile, i)
  }

  /** The generated problem: every teacher, cohort and period of the profile, full coverage, and the demand of the rotation. */
  ghost predicate IsSimulation(profile: Profile, problem: Problem)
    requires Sized(profile)
  {
    && problem.workspace == WORKSPACE && problem.year == YEAR && problem.term == TERM && problem.fullCoverage
    && problem.learners == map[] && problem.groups == [] && problem.blocks == [] && problem.resources == map[]
    && FinePeriods(profile, problem.periods)
    && (forall id: Id :: id in problem.teachers <==> 1 <= id <= profile.teachers)
    && (forall t: nat | t < profile.teachers :: FineTeacher(profile, problem, t))
    && (forall id: Id :: id in problem.cohorts <==> 1 <= id <= profile.cohorts)
    && (forall id | id in problem.cohorts :: problem.cohorts[id].workspace == WORKSPACE && problem.cohorts[id].unavailable == {})
    && FineAssignments(profile, problem)
    && forall x: (Id, Id) :: x in problem.registrations <==> Registered(profile, Length(profile), 0, x)
  }

  lemma SimulationIsWellFormed(profile: Profile, problem: Problem)
    requires Sized(profile) && IsSimulation(profile, problem)
    ensures WellFormed(problem) && Agreement.Ordinary(problem)
  {
    hide FineTeacher, AssignmentOf, KeyAt, Slots;
    forall a | a in problem.assignments
      ensures a.id != NO_ID
    {
      var key :| Proper(profile, key) && Takes(profile, key) && a == AssignmentOf(profile, key);
      assert a.id == AssignmentId(profile, key) by {
        AssignmentHasId(profile, key);
      }
    }
  }

  lemma AssignmentHasId(profile: Profile, key: Key)
    requires Sized(profile)
    ensures var a := AssignmentOf(profile, key);
            && a.id == AssignmentId(profile, key) && a.id != NO_ID && a.weekly == |Slots(profile, key, Length(profile))|
            && a.teacher == TeacherId(key.teacher) && a.cohort == CohortId(key.cohort) && a.resource == NO_ID
            && a.doubles == (if profile.double then a.weekly / 2 else 0) && a.mandatory
            && a.subject == SubjectId(key.subject) && a.cohortSubject == CohortSubjectId(profile, key)
            && a.year == YEAR && a.term == TERM && a.workspace == WORKSPACE && a.active
  {
    hide Slots;
  }

  lemma PeriodLookup(profile: Profile, problem: Problem, i: nat)
    requires Sized(profile) && IsSimulation(profile, problem) && i < Length(profile)
    ensures PeriodId(i) in PeriodById(problem.periods) && profile.perDay > 0 && PeriodById(problem.periods)[PeriodId(i)] == PeriodAt(profile, i)
  {
    hide FineTeacher, FineAssignments, KeyAt, Slots;
    PeriodByIdEntries(problem.periods);
    assert problem.periods[i] in problem.periods;
  }

  /** The periods of a day are taught and mandatory and follow each other, but for the gap in the middle of the day. */
  lemma PeriodIs(profile: Profile, day: nat, local: nat)
    requires local < profile.perDay
    ensures PeriodAt(profile, day * profile.perDay + local)
         == Period(day * profile.perDay + local + 1, day, local + if local < profile.perDay / 2 then 0 else 1, true, true, false)
  {
    Quotient(day * profile.perDay + local, profile.perDay, day, local);
  }

  /** An assignment has as many weekly periods as the rotation has periods for it, and with double lessons half as many doubles. */
  lemma DemandIs(profile: Profile, key: Key)
    requires Sized(profile)
    ensures var taught := set i | 0 <= i < Length(profile) && KeyAt(profile, key.cohort, i) == key;
            && AssignmentOf(profile, key).weekly == |taught| && (Takes(profile, key) <==> taught != {})
            && (profile.double ==> 2 * AssignmentOf(profile, key).doubles == |taught|) && (!profile.double ==> AssignmentOf(profile, key).doubles == 0)
  {
    var slots := Slots(profile, key, Length(profile));
    var taught := set i | 0 <= i < Length(profile) && KeyAt(profile, key.cohort, i) == key;
    SlotsFacts(profile, key, Length(profile));
    AssignmentHasId(profile, key);
    if profile.double {
      LengthIsEven(profile);
      SlotsPair(profile, key, Length(profile) / 2);
    }
    hide Slots, KeyAt, AssignmentOf, Length;
    DistinctSetSize(slots, taught);
    if slots != [] {
      assert slots[0] in slots;
    }
  }

  /** Both halves of a double lesson are on the same side of the gap. */
  lemma PairAdjoins(profile: Profile, problem: Problem, i: nat)
    requires Sized(profile) && IsSimulation(profile, problem) && profile.double && i % 2 == 0 && i + 1 < Length(profile)
    ensures Adjoining(problem, PeriodId(i), PeriodId(i + 1))
  {
    hide IsSimulation, PeriodById, PeriodAt, Length;
    PeriodLookup(profile, problem, i);
    PeriodLookup(profile, problem, i + 1);
    PairOnOneSide(profile, i);
  }

  lemma PairOnOneSide(profile: Profile, i: nat)
    requires Sized(profile) && profile.double && profile.perDay > 0 && i % 2 == 0
    ensures PairTouches(profile, i)
  {
    var half := profile.perDay / 2;
    assert profile.perDay == 2 * half && half % 2 == 0;
    EvenInDay(i, half);
  }

  /** The second period of a pair follows the first at once on the same day. */
  predicate PairTouches(profile: Profile, i: nat)
    requires profile.perDay > 0
  {
    PeriodAt(profile, i + 1).day == PeriodAt(profile, i).day && PeriodAt(profile, i + 1).index == PeriodAt(profile, i).index + 1
  }

  /** The week falls into pairs that double lessons can use exactly when four divides the length of the day. */
  lemma PairsTouchIff(profile: Profile)
    requires Length(profile) > 0
    ensures profile.perDay > 0
    ensures profile.perDay % 4 == 0 <==>
              Length(profile) % 2 == 0 && forall i: nat | i % 2 == 0 && i + 1 < Length(profile) :: PairTouches(profile, i)
  {
    assert profile.perDay > 0 && profile.days > 0;
    if profile.perDay % 4 == 0 {
      FourDivides(profile);
    } else {
      var i := BrokenPair(profile);
    }
  }

  lemma FourDivides(profile: Profile)
    requires profile.perDay > 0 && profile.perDay % 4 == 0
    ensures Length(profile) % 2 == 0 && forall i: nat | i % 2 == 0 :: PairTouches(profile, i)
  {
    var half := profile.perDay / 2;
    assert profile.perDay == 2 * half && half % 2 == 0;
    assert Length(profile) == 2 * (profile.days * half);
    forall i: nat | i % 2 == 0
      ensures PairTouches(profile, i)
    {
      EvenInDay(i, half);
    }
  }

  /** Otherwise the pair at noon or at the end of the day is broken, or the last period has no partner. */
  lemma BrokenPair(profile: Profile) returns (i: nat)
    requires profile.perDay > 0 && profile.days > 0 && profile.perDay % 4 != 0
    ensures Length(profile) % 2 == 0 ==> i % 2 == 0 && i + 1 < Length(profile) && !PairTouches(profile, i)
  {
    var n := profile.perDay;
    WholeDays(profile, n);
    hide PairTouches, Length;
    var half := n / 2;
    if n == 2 * half {
      i := half - 1;
      HalfIsOdd(n, half);
      BrokenAtNoon(profile, i);
    } else {
      i := n - 1;
      assert n == 2 * half + 1;
      BrokenAtNight(profile, i);
    }
  }

  lemma HalfIsOdd(n: nat, half: nat)
    requires n == 2 * half && n % 4 != 0
    ensures half % 2 == 1
  {
  }

  lemma BrokenAtNoon(profile: Profile, i: nat)
    requires profile.perDay > 0 && i + 1 < profile.perDay && i + 1 == profile.perDay / 2
    ensures !PairTouches(profile, i)
  {
    Quotient(i, profile.perDay, 0, i);
    Quotient(i + 1, profile.perDay, 0, i + 1);
  }

  lemma BrokenAtNight(profile: Profile, i: nat)
    requires i + 1 == profile.perDay
    ensures !PairTouches(profile, i)
  {
    Quotient(i, profile.perDay, 0, i);
    Quotient(i + 1, profile.perDay, 1, 0);
  }

  lemma WholeDays(profile: Profile, n: nat)
    requires profile.days > 0 && n == profile.perDay
    ensures Length(profile) == n || 2 * n <= Length(profile)
  {
    if profile.days > 1 {
      assert profile.days * n == (profile.days - 2) * n + 2 * n;
    }
  }

  lemma EvenInDay(i: nat, half: nat)
    requires half > 0 && i % 2 == 0
    ensures (i + 1) / (2 * half) == i / (2 * half) && (i + 1) % (2 * half) == i % (2 * half) + 1 && (i % (2 * half)) % 2 == 0
  {
    var n := 2 * half;
    var q, r := i / n, i % n;
    assert i == n * q + r;
    Regroup(q, 2, half);
    assert i == 2 * (q * half) + r;
    assert r % 2 == 0 && r + 1 < n;
    Quotient(i + 1, n, q, r + 1);
  }

  // ----- the witness

  /** The period is one of the first `r` slots of the lesson. */
  ghost predicate Claimed(profile: Profile, key: Key, r: nat, per: Id)
    requires Sized(profile)
  {
    exists j: nat :: j < r && j < |Slots(profile, key, Length(profile))| && per == PeriodId(Slots(profile, key, Length(profile))[j])
  }

  /** A placement of the lesson `key` in some of its first `r` slots. */
  ghost predicate PlacedFor(profile: Profile, key: Key, r: nat, p: Placement)
    requires Sized(profile)
  {
    && p.assignment == AssignmentId(profile, key) && p.teacher == TeacherId(key.teacher) && p.cohort == CohortId(key.cohort)
    && forall per | per in p.periods :: Claimed(profile, key, r, per)
  }

  /** How many slots of the `j`-th lesson are placed when `k` lessons are done and `r` slots of the next one. */
  ghost function Progress(profile: Profile, order: seq<Key>, k: nat, r: nat, j: nat): nat
    requires Sized(profile) && j < |order|
  {
    if j < k then |Slots(profile, order[j], Length(profile))| else if j == k then r else 0
  }

  ghost predicate PlacedSomewhere(profile: Profile, order: seq<Key>, k: nat, r: nat, p: Placement)
    requires Sized(profile)
  {
    exists j: nat :: j < |order| && PlacedFor(profile, order[j], Progress(profile, order, k, r, j), p)
  }

  /** The claimed slots are taught, and counted. */
  ghost predicate Delivered(profile: Profile, order: seq<Key>, k: nat, r: nat, ps: seq<Placement>, j: nat)
    requires Sized(profile) && j < |order|
  {
    var n, id := Progress(profile, order, k, r, j), AssignmentId(profile, order[j]);
    && Credit(ps, id) == n && DoubleCount(ps, id) == (if profile.double then n / 2 else 0)
    && forall per: Id | Claimed(profile, order[j], n, per) :: Booked(CohortUse, ps, CohortId(order[j].cohort), per)
  }

  ghost predicate Built(profile: Profile, problem: Problem, order: seq<Key>, k: nat, r: nat, ps: seq<Placement>)
    requires Sized(profile)
  {
    && Compatible(problem, Schedule(problem), ps)
    && AllPlaced(profile, order, k, r, ps) && AllDelivered(profile, order, k, r, ps)
  }

  ghost predicate AllPlaced(profile: Profile, order: seq<Key>, k: nat, r: nat, ps: seq<Placement>)
    requires Sized(profile)
  {
    forall p | p in ps :: PlacedSomewhere(profile, order, k, r, p)
  }

  ghost predicate AllDelivered(profile: Profile, order: seq<Key>, k: nat, r: nat, ps: seq<Placement>)
    requires Sized(profile)
  {
    forall j: nat | j < |order| :: Delivered(profile, order, k, r, ps, j)
  }

  ghost predicate GoodOrder(profile: Profile, order: seq<Key>)
    requires Sized(profile)
  {
    Distinct(order) && forall key | key in order :: Proper(profile, key) && Takes(profile, key)
  }

  /** Two lessons with the same teacher, or the same cohort, in the same period are the same lesson. */
  lemma SameLesson(profile: Profile, key: Key, other: Key, r: nat, s: nat, per: Id)
    requires Sized(profile) && Proper(profile, key) && Proper(profile, other)
    requires Claimed(profile, key, r, per) && Claimed(profile, other, s, per) && (key.teacher == other.teacher || key.cohort == other.cohort)
    ensures key == other
  {
    SlotsFacts(profile, key, Length(profile));
    SlotsFacts(profile, other, Length(profile));
    hide Slots, KeyAt;
    var i := per - 1;
    assert i in Slots(profile, key, Length(profile)) && i in Slots(profile, other, Length(profile));
    if key.teacher == other.teacher {
      RotationIsLatin(profile, key.cohort, other.cohort, i);
    }
  }

  /** The slots from `r` on are not among the first `r`. */
  lemma SlotsDiffer(profile: Profile, key: Key, r: nat, j: nat)
    requires Sized(profile) && r <= j < |Slots(profile, key, Length(profile))|
    ensures !Claimed(profile, key, r, PeriodId(Slots(profile, key, Length(profile))[j]))
  {
    SlotsFacts(profile, key, Length(profile));
    hide Slots;
  }

  lemma OthersElsewhere(profile: Profile, order: seq<Key>, k: nat, r: nat, s: nat, m: nat, p: Placement, per: Id)
    requires Sized(profile) && GoodOrder(profile, order) && k < |order| && m < |order|
    requires Claimed(profile, order[k], s, per) && !Claimed(profile, order[k], r, per)
    requires PlacedFor(profile, order[m], Progress(profile, order, k, r, m), p) && per in p.periods
    ensures p.teacher != TeacherId(order[k].teacher) && p.cohort != CohortId(order[k].cohort)
  {
    hide Claimed, Takes;
    assert order[k] in order && order[m] in order;
    if order[m].teacher == order[k].teacher || order[m].cohort == order[k].cohort {
      SameLesson(profile, order[k], order[m], s, Progress(profile, order, k, r, m), per);
    }
  }

  lemma SlotIsFree(profile: Profile, problem: Problem, order: seq<Key>, k: nat, r: nat, ps: seq<Placement>, j: nat)
    requires Sized(profile) && IsSimulation(profile, problem) && GoodOrder(profile, order) && Built(profile, problem, order, k, r, ps)
    requires k < |order| && r <= j < |Slots(profile, order[k], Length(profile))|
    ensures var per := PeriodId(Slots(profile, order[k], Length(profile))[j]);
            && !Booked(TeacherUse, ps, TeacherId(order[k].teacher), per) && !Booked(CohortUse, ps, CohortId(order[k].cohort), per)
  {
    var key := order[k];
    var per := PeriodId(Slots(profile, key, Length(profile))[j]);
    hide Slots, IsSimulation, Schedule, LegalLesson, AtMostOnce, Delivered, WellFormed, GoodOrder, TeacherId, CohortId;
    SimulationIsWellFormed(profile, problem);
    SlotsDiffer(profile, key, r, j);
    assert Claimed(profile, key, j + 1, per);
    hide Claimed, PlacedFor, Keys;
    forall p | p in ps && per in p.periods
      ensures p.teacher != TeacherId(key.teacher) && CohortId(key.cohort) !in Keys(CohortUse, p)
    {
      CohortKeys(problem, Schedule(problem), p);
      PlacedElsewhere(profile, order, k, r, j + 1, p, per);
    }
    assert forall p | p in ps :: Keys(TeacherUse, p) == [p.teacher] by {
      TeacherOnly(ps);
    }
  }

  lemma TeacherOnly(ps: seq<Placement>)
    ensures forall p | p in ps :: Keys(TeacherUse, p) == [p.teacher]
  {
  }

  lemma PlacedElsewhere(profile: Profile, order: seq<Key>, k: nat, r: nat, s: nat, p: Placement, per: Id)
    requires Sized(profile) && GoodOrder(profile, order) && k < |order| && PlacedSomewhere(profile, order, k, r, p) && per in p.periods
    requires Claimed(profile, order[k], s, per) && !Claimed(profile, order[k], r, per)
    ensures p.teacher != TeacherId(order[k].teacher) && p.cohort != CohortId(order[k].cohort)
  {
    hide Claimed, PlacedFor, GoodOrder;
    var m: nat :| m < |order| && PlacedFor(profile, order[m], Progress(profile, order, k, r, m), p);
    OthersElsewhere(profile, order, k, r, s, m, p, per);
  }

  // ----- one more placement

  /** The next placement of a lesson: one slot, or a pair of slots. */
  function Step(profile: Profile): nat {
    if profile.double then 2 else 1
  }

  function NextPeriods(profile: Profile, key: Key, r: nat): seq<Id>
    requires Sized(profile) && r + Step(profile) <= |Slots(profile, key, Length(profile))|
  {
    var slots := Slots(profile, key, Length(profile));
    if profile.double then [PeriodId(slots[r]), PeriodId(slots[r + 1])] else [PeriodId(slots[r])]
  }

  lemma NextShape(profile: Profile, problem: Problem, key: Key, r: nat)
    requires Sized(profile) && IsSimulation(profile, problem) && r % Step(profile) == 0 && r + Step(profile) <= |Slots(profile, key, Length(profile))|
    ensures WellShaped(problem, NextPeriods(profile, key, r), profile.double) && Distinct(NextPeriods(profile, key, r))
  {
    SlotsFacts(profile, key, Length(profile));
    var slots := Slots(profile, key, Length(profile));
    hide IsSimulation, KeyAt, Slots, Adjoining;
    if profile.double {
      LengthIsEven(profile);
      SlotsPair(profile, key, Length(profile) / 2);
      assert PairAt(slots, r / 2);
      assert slots[r + 1] in slots;
      PairAdjoins(profile, problem, slots[r]);
    }
  }

  /** The slots of a lesson are open to it. */
  lemma SlotIsOpen(profile: Profile, problem: Problem, key: Key, j: nat)
    requires Sized(profile) && IsSimulation(profile, problem) && Proper(profile, key) && j < |Slots(profile, key, Length(profile))|
    ensures OpenCell(problem, AssignmentOf(profile, key), PeriodId(Slots(profile, key, Length(profile))[j]))
    ensures LocalTeacher(problem, TeacherId(key.teacher)) && LocalCohort(problem, CohortId(key.cohort))
  {
    SlotsFacts(profile, key, Length(profile));
    var i := Slots(profile, key, Length(profile))[j];
    assert i in Slots(profile, key, Length(profile));
    AssignmentHasId(profile, key);
    hide Slots, AssignmentOf, FineAssignments, PeriodById, Registered, Away, KeyAt;
    PeriodLookup(profile, problem, i);
    assert FineTeacher(profile, problem, key.teacher);
    NotAway(profile, key, i);
  }

  lemma NotAway(profile: Profile, key: Key, i: nat)
    requires Sized(profile) && Proper(profile, key) && KeyAt(profile, key.cohort, i) == key
    ensures !Away(profile, key.teacher, PeriodId(i))
  {
    assert key.cohort < profile.cohorts && KeyAt(profile, key.cohort, i).teacher == key.teacher;
    assert Busy(profile, key.teacher, i);
    hide KeyAt;
  }

  lemma IsScheduled(profile: Profile, problem: Problem, key: Key)
    requires Sized(profile) && IsSimulation(profile, problem) && Proper(profile, key) && Takes(profile, key)
    ensures AssignmentId(profile, key) in Schedule(problem) && Schedule(problem)[AssignmentId(profile, key)] == AssignmentOf(profile, key)
  {
    SimulationIsWellFormed(profile, problem);
    AssignmentHasId(profile, key);
    hide Slots, AssignmentOf, FineTeacher, Schedule, WellFormed;
    ScheduleEntries(problem);
    assert AssignmentOf(profile, key) in problem.assignments;
  }

  lemma NextIsLegal(profile: Profile, problem: Problem, key: Key, r: nat)
    requires Sized(profile) && IsSimulation(profile, problem) && Proper(profile, key)
    requires r % Step(profile) == 0 && r + Step(profile) <= |Slots(profile, key, Length(profile))|
    ensures LegalLesson(problem, Schedule(problem), LessonOf(problem, AssignmentOf(profile, key), NextPeriods(profile, key, r), profile.double))
  {
    NextShape(profile, problem, key, r);
    IsScheduled(profile, problem, key);
    AssignmentHasId(profile, key);
    SlotIsOpen(profile, problem, key, r);
    if profile.double {
      SlotIsOpen(profile, problem, key, r + 1);
    }
    hide Slots, AssignmentOf, IsSimulation, Schedule, OpenCell, WellShaped;
  }

  lemma ClaimedMore(profile: Profile, key: Key, r: nat, s: nat, per: Id)
    requires Sized(profile) && r <= s && Claimed(profile, key, r, per)
    ensures Claimed(profile, key, s, per)
  {
    hide Slots;
  }

  lemma PlacedMore(profile: Profile, order: seq<Key>, k: nat, r: nat, s: nat, p: Placement)
    requires Sized(profile) && r <= s && PlacedSomewhere(profile, order, k, r, p)
    ensures PlacedSomewhere(profile, order, k, s, p)
  {
    hide Claimed, Slots;
    var m: nat :| m < |order| && PlacedFor(profile, order[m], Progress(profile, order, k, r, m), p);
    forall per | per in p.periods
      ensures Claimed(profile, order[m], Progress(profile, order, k, s, m), per)
    {
      ClaimedMore(profile, order[m], Progress(profile, order, k, r, m), Progress(profile, order, k, s, m), per);
    }
    assert PlacedFor(profile, order[m], Progress(profile, order, k, s, m), p);
  }

  /** The slots that the next placement claims. */
  lemma NextClaims(profile: Profile, key: Key, r: nat, per: Id)
    requires Sized(profile) && r + Step(profile) <= |Slots(profile, key, Length(profile))|
    ensures Claimed(profile, key, r + Step(profile), per) <==> Claimed(profile, key, r, per) || per in NextPeriods(profile, key, r)
  {
    var slots := Slots(profile, key, Length(profile));
    hide Slots;
    if Claimed(profile, key, r + Step(profile), per) {
      var j: nat :| j < r + Step(profile) && j < |slots| && per == PeriodId(slots[j]);
      assert j >= r ==> j == r || j == r + 1;
    }
    assert PeriodId(slots[r]) in NextPeriods(profile, key, r);
  }

  lemma DeliveredOther(profile: Profile, problem: Problem, order: seq<Key>, k: nat, r: nat, s: nat, ps: seq<Placement>, p: Placement, j: nat)
    requires Sized(profile) && GoodOrder(profile, order) && k < |order| && j < |order| && j != k
    requires Delivered(profile, order, k, r, ps, j) && AssignmentIds(p) == [AssignmentId(profile, order[k])] && p.assignment == AssignmentId(profile, order[k])
    ensures Delivered(profile, order, k, s, ps + [p], j)
  {
    hide Claimed, Slots, Credit, DoubleCount, Takes, AssignmentIds, AssignmentId, Keys;
    assert order[j] in order && order[k] in order;
    if AssignmentId(profile, order[j]) == AssignmentId(profile, order[k]) {
      AssignmentIdsDiffer(profile, order[j], order[k]);
    }
    CreditAppend(ps, p, AssignmentId(profile, order[j]));
    DoubleCountAppend(ps, p, AssignmentId(profile, order[j]));
    assert forall q :: q in ps + [p] <==> q in ps || q == p;
  }

  lemma DeliveredNext(profile: Profile, problem: Problem, order: seq<Key>, k: nat, r: nat, ps: seq<Placement>, p: Placement)
    requires Sized(profile) && k < |order| && Delivered(profile, order, k, r, ps, k) && r % Step(profile) == 0
    requires r + Step(profile) <= |Slots(profile, order[k], Length(profile))|
    requires AssignmentIds(p) == [AssignmentId(profile, order[k])] && p.assignment == AssignmentId(profile, order[k])
    requires p.periods == NextPeriods(profile, order[k], r) && p.double == profile.double && Keys(CohortUse, p) == [CohortId(order[k].cohort)]
    ensures Delivered(profile, order, k, r + Step(profile), ps + [p], k)
  {
    hide Claimed, Slots, Credit, DoubleCount, AssignmentIds, AssignmentId, Keys;
    var id := AssignmentId(profile, order[k]);
    CreditAppend(ps, p, id);
    DoubleCountAppend(ps, p, id);
    forall per: Id | Claimed(profile, order[k], r + Step(profile), per)
      ensures Booked(CohortUse, ps + [p], CohortId(order[k].cohort), per)
    {
      NextClaims(profile, order[k], r, per);
      assert forall q :: q in ps + [p] <==> q in ps || q == p;
    }
  }

  /** The placement of the next slots keeps the witness on track. */
  lemma BuildOne(profile: Profile, problem: Problem, order: seq<Key>, k: nat, r: nat, ps: seq<Placement>)
    requires Sized(profile) && IsSimulation(profile, problem) && GoodOrder(profile, order) && Built(profile, problem, order, k, r, ps)
    requires k < |order| && r % Step(profile) == 0 && r + Step(profile) <= |Slots(profile, order[k], Length(profile))|
    ensures Built(profile, problem, order, k, r + Step(profile),
                  ps + [LessonOf(problem, AssignmentOf(profile, order[k]), NextPeriods(profile, order[k], r), profile.double)])
  {
    hide *;
    var key := order[k];
    var p := LessonOf(problem, AssignmentOf(profile, key), NextPeriods(profile, key, r), profile.double);
    GoodKey(profile, order, k);
    NextPlacementFacts(profile, problem, key, r);
    PlacementIsFree(profile, problem, order, k, r, ps, p);
    SimulationIsWellFormed(profile, problem);
    BuiltParts(profile, problem, order, k, r, ps);
    PlaceKeepsCompatible(problem, Schedule(problem), ps, p);
    PlacedAfter(profile, order, k, r, ps, p);
    DeliveredAfter(profile, problem, order, k, r, ps, p);
    BuiltFrom(profile, problem, order, k, r + Step(profile), ps + [p]);
  }

  lemma GoodKey(profile: Profile, order: seq<Key>, k: nat)
    requires Sized(profile) && GoodOrder(profile, order) && k < |order|
    ensures Proper(profile, order[k]) && Takes(profile, order[k])
  {
    hide Takes;
    assert order[k] in order;
  }

  lemma BuiltParts(profile: Profile, problem: Problem, order: seq<Key>, k: nat, r: nat, ps: seq<Placement>)
    requires Sized(profile) && Built(profile, problem, order, k, r, ps)
    ensures Compatible(problem, Schedule(problem), ps) && AllPlaced(profile, order, k, r, ps) && AllDelivered(profile, order, k, r, ps)
  {
    hide Compatible, AllPlaced, AllDelivered;
  }

  lemma BuiltFrom(profile: Profile, problem: Problem, order: seq<Key>, k: nat, r: nat, ps: seq<Placement>)
    requires Sized(profile) && Compatible(problem, Schedule(problem), ps) && AllPlaced(profile, order, k, r, ps) && AllDelivered(profile, order, k, r, ps)
    ensures Built(profile, problem, order, k, r, ps)
  {
    hide Compatible, AllPlaced, AllDelivered;
  }

  lemma PlacedAfter(profile: Profile, order: seq<Key>, k: nat, r: nat, ps: seq<Placement>, p: Placement)
    requires Sized(profile) && k < |order| && r + Step(profile) <= |Slots(profile, order[k], Length(profile))| && AllPlaced(profile, order, k, r, ps)
    requires p.assignment == AssignmentId(profile, order[k]) && p.teacher == TeacherId(order[k].teacher) && p.cohort == CohortId(order[k].cohort)
    requires p.periods == NextPeriods(profile, order[k], r)
    ensures AllPlaced(profile, order, k, r + Step(profile), ps + [p])
  {
    hide PlacedSomewhere, Slots, NextPeriods;
    forall q | q in ps + [p]
      ensures PlacedSomewhere(profile, order, k, r + Step(profile), q)
    {
      if q in ps {
        PlacedMore(profile, order, k, r, r + Step(profile), q);
      } else {
        NewIsPlaced(profile, order, k, r, p);
      }
    }
  }

  lemma DeliveredAfter(profile: Profile, problem: Problem, order: seq<Key>, k: nat, r: nat, ps: seq<Placement>, p: Placement)
    requires Sized(profile) && GoodOrder(profile, order) && k < |order| && AllDelivered(profile, order, k, r, ps) && r % Step(profile) == 0
    requires r + Step(profile) <= |Slots(profile, order[k], Length(profile))|
    requires AssignmentIds(p) == [AssignmentId(profile, order[k])] && p.assignment == AssignmentId(profile, order[k])
    requires p.periods == NextPeriods(profile, order[k], r) && p.double == profile.double && Keys(CohortUse, p) == [CohortId(order[k].cohort)]
    ensures AllDelivered(profile, order, k, r + Step(profile), ps + [p])
  {
    hide Delivered, Slots, NextPeriods, GoodOrder, AssignmentIds, AssignmentId, Keys, Step;
    var s, after := r + Step(profile), ps + [p];
    forall j: nat | j < |order|
      ensures Delivered(profile, order, k, s, after, j)
    {
      if j == k {
        assert Delivered(profile, order, k, r, ps, k);
        DeliveredNext(profile, problem, order, k, r, ps, p);
      } else {
        assert Delivered(profile, order, k, r, ps, j);
        DeliveredOther(profile, problem, order, k, r, s, ps, p, j);
      }
    }
  }

  lemma NewIsPlaced(profile: Profile, order: seq<Key>, k: nat, r: nat, p: Placement)
    requires Sized(profile) && k < |order| && r + Step(profile) <= |Slots(profile, order[k], Length(profile))|
    requires p.assignment == AssignmentId(profile, order[k]) && p.teacher == TeacherId(order[k].teacher) && p.cohort == CohortId(order[k].cohort)
    requires p.periods == NextPeriods(profile, order[k], r)
    ensures PlacedSomewhere(profile, order, k, r + Step(profile), p)
  {
    hide Claimed, Slots, NextPeriods;
    forall per | per in p.periods
      ensures Claimed(profile, order[k], r + Step(profile), per)
    {
      NextClaims(profile, order[k], r, per);
    }
    assert PlacedFor(profile, order[k], Progress(profile, order, k, r + Step(profile), k), p);
  }

  lemma NextPlacementFacts(profile: Profile, problem: Problem, key: Key, r: nat)
    requires Sized(profile) && IsSimulation(profile, problem) && Proper(profile, key)
    requires r % Step(profile) == 0 && r + Step(profile) <= |Slots(profile, key, Length(profile))|
    ensures var p := LessonOf(problem, AssignmentOf(profile, key), NextPeriods(profile, key, r), profile.double);
            && LegalLesson(problem, Schedule(problem), p) && Distinct(p.periods) && p.resource == NO_ID
            && p.assignment == AssignmentId(profile, key) && p.teacher == TeacherId(key.teacher) && p.cohort == CohortId(key.cohort)
            && p.periods == NextPeriods(profile, key, r) && p.double == profile.double
            && AssignmentIds(p) == [AssignmentId(profile, key)] && Keys(CohortUse, p) == [CohortId(key.cohort)]
  {
    NextIsLegal(profile, problem, key, r);
    NextShape(profile, problem, key, r);
    AssignmentHasId(profile, key);
    hide IsSimulation, Slots, AssignmentOf, Schedule, LegalLesson, NextPeriods, WellShaped;
  }

  lemma PlacementIsFree(profile: Profile, problem: Problem, order: seq<Key>, k: nat, r: nat, ps: seq<Placement>, p: Placement)
    requires Sized(profile) && IsSimulation(profile, problem) && GoodOrder(profile, order) && Built(profile, problem, order, k, r, ps)
    requires k < |order| && r + Step(profile) <= |Slots(profile, order[k], Length(profile))|
    requires p.teacher == TeacherId(order[k].teacher) && p.cohort == CohortId(order[k].cohort) && p.periods == NextPeriods(profile, order[k], r)
    requires p.resource == NO_ID
    ensures Free(ps, p) && ResourceLeft(problem, ps, p)
  {
    hide IsSimulation, GoodOrder, Built, Slots, Booked;
    SlotIsFree(profile, problem, order, k, r, ps, r);
    if profile.double {
      SlotIsFree(profile, problem, order, k, r, ps, r + 1);
    }
  }

  /** When a lesson is done, the next one begins. */
  lemma BuildNext(profile: Profile, problem: Problem, order: seq<Key>, k: nat, ps: seq<Placement>)
    requires Sized(profile) && k < |order| && Built(profile, problem, order, k, |Slots(profile, order[k], Length(profile))|, ps)
    ensures Built(profile, problem, order, k + 1, 0, ps)
  {
    var r, next := |Slots(profile, order[k], Length(profile))|, k + 1;
    hide *;
    BuiltParts(profile, problem, order, k, r, ps);
    SameProgress(profile, order, k);
    SamePlaced(profile, order, k, ps);
    SameDelivered(profile, order, k, ps);
    BuiltFrom(profile, problem, order, next, 0, ps);
  }

  lemma SameProgress(profile: Profile, order: seq<Key>, k: nat)
    requires Sized(profile) && k < |order|
    ensures forall j: nat | j < |order| ::
              Progress(profile, order, k, |Slots(profile, order[k], Length(profile))|, j) == Progress(profile, order, k + 1, 0, j)
  {
    hide Slots;
  }

  lemma SamePlaced(profile: Profile, order: seq<Key>, k: nat, ps: seq<Placement>)
    requires Sized(profile) && k < |order| && AllPlaced(profile, order, k, |Slots(profile, order[k], Length(profile))|, ps)
    ensures AllPlaced(profile, order, k + 1, 0, ps)
  {
    var r, next := |Slots(profile, order[k], Length(profile))|, k + 1;
    SameProgress(profile, order, k);
    hide Slots, PlacedFor, Progress;
    forall p | p in ps
      ensures PlacedSomewhere(profile, order, next, 0, p)
    {
      assert PlacedSomewhere(profile, order, k, r, p);
      var m: nat :| m < |order| && PlacedFor(profile, order[m], Progress(profile, order, k, r, m), p);
      assert PlacedFor(profile, order[m], Progress(profile, order, next, 0, m), p);
    }
  }

  lemma SameDelivered(profile: Profile, order: seq<Key>, k: nat, ps: seq<Placement>)
    requires Sized(profile) && k < |order| && AllDelivered(profile, order, k, |Slots(profile, order[k], Length(profile))|, ps)
    ensures AllDelivered(profile, order, k + 1, 0, ps)
  {
    var r, next := |Slots(profile, order[k], Length(profile))|, k + 1;
    SameProgress(profile, order, k);
    hide Slots, Claimed, Progress, Credit, DoubleCount;
    forall j: nat | j < |order|
      ensures Delivered(profile, order, next, 0, ps, j)
    {
      assert Delivered(profile, order, k, r, ps, j);
      assert Progress(profile, order, k, r, j) == Progress(profile, order, next, 0, j);
    }
  }

  // ----- the witness is a valid timetable

  /** The order lists every lesson that takes place. */
  ghost predicate CompleteOrder(profile: Profile, order: seq<Key>)
    requires Sized(profile)
  {
    GoodOrder(profile, order) && forall key | Proper(profile, key) && Takes(profile, key) :: key in order
  }

  ghost predicate Finished(profile: Profile, problem: Problem, order: seq<Key>, ps: seq<Placement>)
    requires Sized(profile)
  {
    Compatible(problem, Schedule(problem), ps) && AllDelivered(profile, order, |order|, 0, ps) && CompleteOrder(profile, order)
  }

  lemma DeliveredAll(profile: Profile, problem: Problem, order: seq<Key>, ps: seq<Placement>, key: Key)
    requires Sized(profile) && Finished(profile, problem, order, ps) && Proper(profile, key) && Takes(profile, key)
    ensures var n, id := |Slots(profile, key, Length(profile))|, AssignmentId(profile, key);
            && Credit(ps, id) == n && DoubleCount(ps, id) == (if profile.double then n / 2 else 0)
            && forall per: Id | Claimed(profile, key, n, per) :: Booked(CohortUse, ps, CohortId(key.cohort), per)
  {
    hide Claimed, Slots, Credit, DoubleCount, AssignmentId, Compatible, GoodOrder;
    var j :| 0 <= j < |order| && order[j] == key;
    assert Delivered(profile, order, |order|, 0, ps, j);
  }

  lemma KeyOfPeriod(profile: Profile, c: nat, i: nat)
    requires Sized(profile) && c < profile.cohorts && i < Length(profile)
    ensures var key := KeyAt(profile, c, i);
            && Proper(profile, key) && Takes(profile, key) && key.cohort == c
            && Claimed(profile, key, |Slots(profile, key, Length(profile))|, PeriodId(i))
  {
    var key := KeyAt(profile, c, i);
    KeyAtIsProper(profile, c, i);
    SlotsFacts(profile, key, Length(profile));
    hide Slots;
    assert i in Slots(profile, key, Length(profile));
    var j :| 0 <= j < |Slots(profile, key, Length(profile))| && Slots(profile, key, Length(profile))[j] == i;
  }

  lemma UsableIsPeriod(profile: Profile, problem: Problem, p: Period) returns (i: nat)
    requires Sized(profile) && IsSimulation(profile, problem) && p in UsablePeriods(problem)
    ensures i < Length(profile) && p.id == PeriodId(i)
  {
    hide FineTeacher, FineAssignments, KeyAt;
    UsablePeriodsElements(problem);
    var j :| 0 <= j < |problem.periods| && problem.periods[j] == p;
    i := j;
  }

  /** Every cohort has exactly one lesson in every period. */
  lemma EveryCohortIsCovered(profile: Profile, problem: Problem, order: seq<Key>, ps: seq<Placement>, c: Id)
    requires Sized(profile) && IsSimulation(profile, problem) && Finished(profile, problem, order, ps) && LocalCohort(problem, c)
    ensures CoveredOne(Bookings(CohortUse, ps), UsablePeriods(problem), c, CohortUnavailable(problem, c))
  {
    hide *;
    CohortFacts(profile, problem, order, ps, c);
    forall p | p in UsablePeriods(problem)
      ensures Bookings(CohortUse, ps)[(c, p.id)] == 1
    {
      var i := UsableIsPeriod(profile, problem, p);
      CohortIsBooked(profile, problem, order, ps, c - 1, i);
      BookedIffCounted(CohortUse, ps, c, p.id);
      OnceIsOne(Bookings(CohortUse, ps), (c, p.id));
    }
    AllCoveredOnce(problem, Bookings(CohortUse, ps), c);
  }

  lemma CohortFacts(profile: Profile, problem: Problem, order: seq<Key>, ps: seq<Placement>, c: Id)
    requires Sized(profile) && IsSimulation(profile, problem) && Finished(profile, problem, order, ps) && LocalCohort(problem, c)
    ensures AtMostOnce(Bookings(CohortUse, ps)) && 1 <= c <= profile.cohorts
  {
    hide FineTeacher, FineAssignments, KeyAt, AllDelivered, CompleteOrder, LegalLesson, Bookings, AtMostOnce;
  }

  lemma CohortIsBooked(profile: Profile, problem: Problem, order: seq<Key>, ps: seq<Placement>, c: nat, i: nat)
    requires Sized(profile) && Finished(profile, problem, order, ps) && c < profile.cohorts && i < Length(profile)
    ensures Booked(CohortUse, ps, c + 1, PeriodId(i))
  {
    hide *;
    SizedFacts(profile, c);
    KeyOfPeriod(profile, c, i);
    var key := KeyAt(profile, c, i);
    DeliveredAll(profile, problem, order, ps, key);
    assert Booked(CohortUse, ps, CohortId(key.cohort), PeriodId(i));
  }

  lemma SizedFacts(profile: Profile, c: nat)
    requires Sized(profile)
    ensures profile.teachers > 0 && profile.subjects > 0 && CohortId(c) == c + 1
  {
  }

  lemma AllCoveredOnce(problem: Problem, m: multiset<(Id, Id)>, c: Id)
    requires forall p | p in UsablePeriods(problem) :: m[(c, p.id)] == 1
    ensures CoveredOne(m, UsablePeriods(problem), c, CohortUnavailable(problem, c))
  {
    hide UsablePeriods;
  }

  lemma OnceIsOne(m: multiset<(Id, Id)>, x: (Id, Id))
    requires AtMostOnce(m) && x in m
    ensures m[x] == 1
  {
  }

  lemma AssignmentIsFine(profile: Profile, problem: Problem, key: Key)
    requires Sized(profile) && IsSimulation(profile, problem) && Proper(profile, key) && Takes(profile, key)
    ensures Agreement.FineAssignment(problem, AssignmentOf(profile, key))
  {
    SlotsFacts(profile, key, Length(profile));
    var i := Slots(profile, key, Length(profile))[0];
    assert i in Slots(profile, key, Length(profile));
    AssignmentHasId(profile, key);
    hide Slots, AssignmentOf, FineAssignments, CohortSubjectId;
    assert FineTeacher(profile, problem, key.teacher);
    assert KeyAt(profile, key.cohort, i) == key;
    assert ReachedAt(profile, Length(profile), 0, key.cohort, i);
    assert (CohortId(key.cohort), CohortSubjectId(profile, KeyAt(profile, key.cohort, i))) in problem.registrations;
  }

  lemma KeyOfAssignment(profile: Profile, problem: Problem, a: Assignment) returns (key: Key)
    requires Sized(profile) && IsSimulation(profile, problem) && a in problem.assignments
    ensures Proper(profile, key) && Takes(profile, key) && a == AssignmentOf(profile, key)
  {
    hide Slots, AssignmentOf, FineTeacher, Takes;
    key :| Proper(profile, key) && Takes(profile, key) && a == AssignmentOf(profile, key);
  }

  lemma EveryLessonIsSound(profile: Profile, problem: Problem, order: seq<Key>, ps: seq<Placement>, p: Placement)
    requires Sized(profile) && IsSimulation(profile, problem) && Finished(profile, problem, order, ps) && p in ps
    ensures SoundLesson(problem, p) && Necessity.PlainLesson(problem, p)
  {
    assert LegalLesson(problem, Schedule(problem), p);
    hide Finished, IsSimulation, Schedule, SoundLesson;
    SimulationIsWellFormed(profile, problem);
    ScheduleEntries(problem);
    var key := KeyOfAssignment(profile, problem, Schedule(problem)[p.assignment]);
    AssignmentIsFine(profile, problem, key);
    hide WellFormed, LegalLesson, Agreement.FineAssignment, AssignmentOf;
    Agreement.FineIsSound(problem, p);
    LegalIsPlainLesson(problem, p);
  }

  lemma LegalIsPlainLesson(problem: Problem, p: Placement)
    requires LegalLesson(problem, Schedule(problem), p)
    ensures Necessity.PlainLesson(problem, p)
  {
    hide Schedule, OpenCell, WellShaped;
  }

  lemma EveryDemandIsMet(profile: Profile, problem: Problem, order: seq<Key>, ps: seq<Placement>, a: Assignment)
    requires Sized(profile) && IsSimulation(profile, problem) && Finished(profile, problem, order, ps) && a in problem.assignments
    ensures Credit(ps, a.id) == a.weekly && DoubleCount(ps, a.id) == a.doubles && a.mandatory
  {
    hide Finished, IsSimulation;
    var key := KeyOfAssignment(profile, problem, a);
    DeliveredAll(profile, problem, order, ps, key);
    AssignmentHasId(profile, key);
  }

  // ----- workload

  lemma {:induction false} OnlyUsableSize(s: seq<Period>)
    ensures |OnlyUsable(s)| <= |s|
  {
    if s != [] {
      OnlyUsableSize(s[..|s| - 1]);
    }
  }

  lemma UsableSize(problem: Problem)
    ensures |UsablePeriods(problem)| <= |problem.periods|
  {
    OnlyUsableSize(problem.periods);
    var only := OnlyUsable(problem.periods);
    assert |multiset(SortPeriods(only))| == |SortPeriods(only)| && |multiset(only)| == |only|;
  }

  lemma TeacherPeriods(problem: Problem, ps: seq<Placement>, t: Id, per: Id)
    requires WellFormed(problem) && Compatible(problem, Schedule(problem), ps) && t in problem.teachers && Booked(TeacherUse, ps, t, per)
    ensures per in Necessity.AvailableIds(UsablePeriods(problem), problem.teachers[t].unavailable)
  {
    var periods := UsablePeriods(problem);
    var p :| p in ps && t in Keys(TeacherUse, p) && per in p.periods;
    assert LegalLesson(problem, Schedule(problem), p) && OpenCell(problem, Schedule(problem)[p.assignment], per);
    Engine.UsableFacts(problem);
    hide UsablePeriods, Schedule, WellFormed, Bookings, AtMostOnce;
    Engine.UsableIsListed(problem, per);
    Necessity.AvailableIdsFacts(periods, problem.teachers[t].unavailable);
    var j :| 0 <= j < |periods| && periods[j].id == per;
    assert periods[j] in periods;
  }

  /** A teacher's lessons fit into the teacher's available periods. */
  lemma TeacherFits(problem: Problem, ps: seq<Placement>, t: Id)
    requires WellFormed(problem) && Compatible(problem, Schedule(problem), ps) && t in problem.teachers
    ensures TeacherLoad(ps, t) <= AvailableCount(UsablePeriods(problem), problem.teachers[t].unavailable)
  {
    var periods, unavailable := UsablePeriods(problem), problem.teachers[t].unavailable;
    var booked := Loads.BookedPeriods(TeacherUse, ps, t);
    ExclusiveIffNoClash(TeacherUse, ps);
    Engine.UsableFacts(problem);
    hide UsablePeriods, Schedule, WellFormed, Bookings, AtMostOnce, LegalLesson, NoClash, Booked;
    Necessity.AvailableIdsFacts(periods, unavailable);
    Loads.BookedPeriodsMember(TeacherUse, ps, t);
    forall per | per in booked
      ensures per in Necessity.AvailableIds(periods, unavailable)
    {
      TeacherPeriods(problem, ps, t, per);
    }
    Necessity.WithinList(booked, Necessity.AvailableIds(periods, unavailable));
    Loads.ExclusiveLoad(TeacherUse, ps, t);
    Necessity.KeyLoadIsLoad(TeacherUse, ps, t, Preflight.OfTeacher(t));
    Loads.TeacherLoadIsLoad(ps, t);
  }

  lemma NobodyOverworked(profile: Profile, problem: Problem, ps: seq<Placement>, t: Id)
    requires Sized(profile) && IsSimulation(profile, problem) && Compatible(problem, Schedule(problem), ps) && t in problem.teachers
    ensures TeacherLoad(ps, t) <= WorkloadCap(problem, problem.teachers[t])
  {
    hide *;
    SimulationIsWellFormed(profile, problem);
    TeacherLimit(profile, problem, t);
    TeacherFits(problem, ps, t);
    UsableSize(problem);
    AvailableAtMostAll(UsablePeriods(problem), problem.teachers[t].unavailable);
    LimitIsNoLimit(problem, problem.teachers[t]);
  }

  lemma TeacherLimit(profile: Profile, problem: Problem, t: Id)
    requires Sized(profile) && IsSimulation(profile, problem) && t in problem.teachers
    ensures problem.teachers[t].workloadLimit == |problem.periods|
  {
    hide FineAssignments, KeyAt;
    assert FineTeacher(profile, problem, t - 1);
  }

  lemma LimitIsNoLimit(problem: Problem, t: Teacher)
    requires AvailableCount(UsablePeriods(problem), t.unavailable) <= t.workloadLimit
    ensures WorkloadCap(problem, t) == AvailableCount(UsablePeriods(problem), t.unavailable)
  {
    hide UsablePeriods, AvailableCount;
  }

  // ----- the result

  /** The witness is a valid timetable of the generated problem, for every size and with every option. */
  lemma WitnessIsValid(profile: Profile, problem: Problem, order: seq<Key>, ps: seq<Placement>)
    requires Sized(profile) && IsSimulation(profile, problem) && Finished(profile, problem, order, ps)
    ensures ValidSchedule(problem, ps) && Necessity.Witness(problem, ps)
  {
    SimulationIsWellFormed(profile, problem);
    Agreement.NoAudience(problem, Schedule(problem), ps);
    ExclusiveIffNoClash(TeacherUse, ps);
    ExclusiveIffNoClash(CohortUse, ps);
    ExclusiveIffNoClash(LearnerUse, ps);
    ExclusiveIffNoClash(GroupUse, ps);
    assert Compatible(problem, Schedule(problem), ps) && problem.learners == map[] && problem.blocks == [];
    hide WellFormed, Schedule, LegalLesson, Bookings, AtMostOnce, NoClash, Finished, IsSimulation, SoundLesson, Capacity, Credit, DoubleCount,
         TeacherLoad, WorkloadCap, CoveredOne, Necessity.PlainLesson;
    forall p | p in ps
      ensures SoundLesson(problem, p) && Necessity.PlainLesson(problem, p)
    {
      EveryLessonIsSound(profile, problem, order, ps, p);
    }
    forall a | a in problem.assignments
      ensures Credit(ps, a.id) == a.weekly && DoubleCount(ps, a.id) == a.doubles && a.mandatory
    {
      EveryDemandIsMet(profile, problem, order, ps, a);
    }
    forall t | t in problem.teachers
      ensures TeacherLoad(ps, t) <= WorkloadCap(problem, problem.teachers[t])
    {
      NobodyOverworked(profile, problem, ps, t);
    }
    forall c | LocalCohort(problem, c)
      ensures CoveredOne(Bookings(CohortUse, ps), UsablePeriods(problem), c, CohortUnavailable(problem, c))
    {
      EveryCohortIsCovered(profile, problem, order, ps, c);
    }
  }

  // ----- generating the problem

  method BuildPeriods(profile: Profile) returns (periods: seq<Period>)
    ensures FinePeriods(profile, periods)
  {
    periods := [];
    if profile.perDay == 0 {
      return;
    }
    for day := 0 to profile.days
      invariant |periods| == day * profile.perDay && forall i | 0 <= i < |periods| :: periods[i] == PeriodAt(profile, i)
    {
      for local := 0 to profile.perDay
        invariant |periods| == day * profile.perDay + local && forall i | 0 <= i < |periods| :: periods[i] == PeriodAt(profile, i)
      {
        Quotient(|periods|, profile.perDay, day, local);
        periods := periods + [Period(PeriodId(|periods|), day, if local >= profile.perDay / 2 then local + 1 else local, true, true, false)];
      }
    }
  }

  /** A lesson's periods so far. */
  datatype Aggregate = Aggregate(weekly: nat, taken: seq<Id>)

  function Ids(slots: seq<nat>): (r: seq<Id>)
    ensures |r| == |slots| && forall i | 0 <= i < |r| :: r[i] == PeriodId(slots[i])
  {
    seq(|slots|, i requires 0 <= i < |slots| => PeriodId(slots[i]))
  }

  /** The slots seen when the first `m` cohorts of period `n` are done. */
  function Seen(profile: Profile, key: Key, n: nat, m: nat): seq<nat>
    requires Sized(profile)
  {
    Slots(profile, key, if key.cohort < m then n + 1 else n)
  }

  ghost predicate Gathered(profile: Profile, aggregates: map<Key, Aggregate>, n: nat, m: nat)
    requires Sized(profile)
  {
    forall key ::
      && (key in aggregates <==> Proper(profile, key) && Seen(profile, key, n, m) != [])
      && (key in aggregates ==> aggregates[key] == Aggregate(|Seen(profile, key, n, m)|, Ids(Seen(profile, key, n, m))))
  }

  function Gather(aggregates: map<Key, Aggregate>, key: Key, per: Id): map<Key, Aggregate> {
    aggregates[key := if key in aggregates then Aggregate(aggregates[key].weekly + 1, aggregates[key].taken + [per]) else Aggregate(1, [per])]
  }

  lemma SeenNext(profile: Profile, key: Key, n: nat, m: nat)
    requires Sized(profile)
    ensures KeyAt(profile, m, n) == key ==> Seen(profile, key, n, m + 1) == Seen(profile, key, n, m) + [n]
    ensures KeyAt(profile, m, n) != key ==> Seen(profile, key, n, m + 1) == Seen(profile, key, n, m)
    ensures key.cohort < profile.cohorts ==> Seen(profile, key, n, profile.cohorts) == Seen(profile, key, n + 1, 0)
  {
    assert KeyAt(profile, m, n).cohort == m;
    hide KeyAt;
  }

  lemma GatherOne(profile: Profile, aggregates: map<Key, Aggregate>, n: nat, m: nat)
    requires Sized(profile) && m < profile.cohorts && Gathered(profile, aggregates, n, m)
    ensures Gathered(profile, Gather(aggregates, KeyAt(profile, m, n), PeriodId(n)), n, m + 1)
  {
    var key0 := KeyAt(profile, m, n);
    KeyAtIsProper(profile, m, n);
    hide KeyAt, Seen, Proper;
    var after := Gather(aggregates, key0, PeriodId(n));
    forall key
      ensures key in after <==> Proper(profile, key) && Seen(profile, key, n, m + 1) != []
      ensures key in after ==> after[key] == Aggregate(|Seen(profile, key, n, m + 1)|, Ids(Seen(profile, key, n, m + 1)))
    {
      SeenNext(profile, key, n, m);
      var before := Seen(profile, key, n, m);
      assert Ids(before + [n]) == Ids(before) + [PeriodId(n)];
      assert Ids([] + [n]) == [PeriodId(n)];
      assert key in aggregates <==> Proper(profile, key) && before != [];
    }
  }

  lemma GatherNextPeriod(profile: Profile, aggregates: map<Key, Aggregate>, n: nat)
    requires Sized(profile) && Gathered(profile, aggregates, n, profile.cohorts)
    ensures Gathered(profile, aggregates, n + 1, 0)
  {
    hide KeyAt, Seen;
    forall key | Proper(profile, key)
      ensures Seen(profile, key, n, profile.cohorts) == Seen(profile, key, n + 1, 0)
    {
      SeenNext(profile, key, n, 0);
    }
  }

  /** Everything that the lessons of the first periods leave behind. */
  ghost predicate Recorded(profile: Profile, registrations: set<(Id, Id)>, used: set<(Id, Id)>, n: nat, m: nat)
    requires Sized(profile)
  {
    && (forall x: (Id, Id) :: x in registrations <==> Registered(profile, n, m, x))
    && forall x: (Id, Id) :: x in used <==> Used(profile, n, m, x)
  }

  lemma NothingRecorded(profile: Profile)
    requires Sized(profile)
    ensures Recorded(profile, {}, {}, 0, 0)
  {
  }

  lemma RecordNext(profile: Profile, registrations: set<(Id, Id)>, used: set<(Id, Id)>, n: nat, m: nat)
    requires Sized(profile) && m < profile.cohorts && Recorded(profile, registrations, used, n, m)
    ensures var key := KeyAt(profile, m, n);
            Recorded(profile, registrations + {(CohortId(m), CohortSubjectId(profile, key))}, used + {(PeriodId(n), TeacherId(key.teacher))}, n, m + 1)
  {
    hide KeyAt, CohortSubjectId;
    assert ReachedAt(profile, n, m + 1, m, n);
    forall c: nat, i: nat
      ensures ReachedAt(profile, n, m + 1, c, i) <==> ReachedAt(profile, n, m, c, i) || (c == m && i == n)
    {
    }
    hide ReachedAt;
  }

  lemma RecordNextPeriod(profile: Profile, registrations: set<(Id, Id)>, used: set<(Id, Id)>, n: nat)
    requires Sized(profile) && Recorded(profile, registrations, used, n, profile.cohorts)
    ensures Recorded(profile, registrations, used, n + 1, 0)
  {
    hide KeyAt, CohortSubjectId;
    forall c: nat, i: nat
      ensures ReachedAt(profile, n, profile.cohorts, c, i) <==> ReachedAt(profile, n + 1, 0, c, i)
    {
    }
    hide ReachedAt;
  }

  method BuildAggregates(profile: Profile) returns (aggregates: map<Key, Aggregate>, registrations: set<(Id, Id)>, used: set<(Id, Id)>)
    requires Sized(profile)
    ensures Gathered(profile, aggregates, Length(profile), 0) && Recorded(profile, registrations, used, Length(profile), 0)
  {
    hide KeyAt, CohortSubjectId, Gather, Length;
    NothingRecorded(profile);
    hide Recorded;
    aggregates, registrations, used := map[], {}, {};
    for n := 0 to Length(profile)
      invariant Gathered(profile, aggregates, n, 0) && Recorded(profile, registrations, used, n, 0)
    {
      for m := 0 to profile.cohorts
        invariant Gathered(profile, aggregates, n, m) && Recorded(profile, registrations, used, n, m)
      {
        hide Gathered;
        var key := KeyAt(profile, m, n);
        GatherOne(profile, aggregates, n, m);
        RecordNext(profile, registrations, used, n, m);
        registrations := registrations + {(CohortId(m), CohortSubjectId(profile, key))};
        aggregates := Gather(aggregates, key, PeriodId(n));
        used := used + {(PeriodId(n), TeacherId(key.teacher))};
      }
      GatherNextPeriod(profile, aggregates, n);
      RecordNextPeriod(profile, registrations, used, n);
    }
  }

  method BuildTeachers(profile: Profile, used: set<(Id, Id)>) returns (teachers: map<Id, Teacher>)
    requires Sized(profile)
    ensures forall id: Id :: id in teachers <==> 1 <= id <= profile.teachers
    ensures forall t: nat | t < profile.teachers :: TeacherId(t) in teachers && IsTeacher(profile, used, t, teachers[TeacherId(t)])
  {
    var subjects: set<Id> := {};
    for s := 0 to profile.subjects
      invariant forall id: Id :: id in subjects <==> 1 <= id <= s
    {
      subjects := subjects + {SubjectId(s)};
    }
    teachers := map[];
    for t := 0 to profile.teachers
      invariant forall id: Id :: id in teachers <==> 1 <= id <= t
      invariant forall u: nat | u < t :: TeacherId(u) in teachers && IsTeacher(profile, used, u, teachers[TeacherId(u)])
    {
      var unavailable := {};
      if profile.limits {
        unavailable := Restrict(profile, used, t);
      }
      teachers := teachers[TeacherId(t) := Teacher(TeacherId(t), WORKSPACE, Length(profile), unavailable, subjects)];
    }
  }

  /** A teacher of every subject, with no limit of its own, and available whenever it teaches. */
  ghost predicate IsTeacher(profile: Profile, used: set<(Id, Id)>, t: nat, teacher: Teacher)
    requires Sized(profile)
  {
    && teacher.workspace == WORKSPACE && teacher.workloadLimit == Length(profile)
    && (forall id: Id :: id in teacher.qualified <==> 1 <= id <= profile.subjects)
    && forall id: Id :: id in teacher.unavailable <==>
         profile.limits && 1 <= id <= Length(profile) && (id - 1) % 11 == 0 && (id, TeacherId(t)) !in used
  }

  /** Every eleventh period in which the teacher has no lesson. */
  method Restrict(profile: Profile, used: set<(Id, Id)>, t: nat) returns (unavailable: set<Id>)
    ensures forall id: Id :: id in unavailable <==> 1 <= id <= Length(profile) && (id - 1) % 11 == 0 && (id, TeacherId(t)) !in used
  {
    unavailable := {};
    for n := 0 to Length(profile)
      invariant forall id: Id :: id in unavailable <==> 1 <= id <= n && (id - 1) % 11 == 0 && (id, TeacherId(t)) !in used
    {
      if n % 11 == 0 && (PeriodId(n), TeacherId(t)) !in used {
        unavailable := unavailable + {PeriodId(n)};
      }
    }
  }

  method BuildCohorts(profile: Profile) returns (cohorts: map<Id, Cohort>)
    ensures forall id: Id :: id in cohorts <==> 1 <= id <= profile.cohorts
    ensures forall id | id in cohorts :: cohorts[id].workspace == WORKSPACE && cohorts[id].unavailable == {}
  {
    cohorts := map[];
    for c := 0 to profile.cohorts
      invariant forall id: Id :: id in cohorts <==> 1 <= id <= c
      invariant forall id | id in cohorts :: cohorts[id].workspace == WORKSPACE && cohorts[id].unavailable == {}
    {
      cohorts := cohorts[CohortId(c) := Cohort(CohortId(c), WORKSPACE, {})];
    }
  }

  // ----- demand

  function InsertAssignment(a: Assignment, s: seq<Assignment>): (r: seq<Assignment>)
    ensures multiset(r) == multiset{a} + multiset(s)
  {
    if s == [] || a.id <= s[0].id then [a] + s
    else
      assert s == [s[0]] + s[1..];
      [s[0]] + InsertAssignment(a, s[1..])
  }

  /** The library's sort, by identifier. */
  function SortAssignments(s: seq<Assignment>): (r: seq<Assignment>)
    ensures multiset(r) == multiset(s)
  {
    if s == [] then []
    else
      assert s == [s[0]] + s[1..];
      InsertAssignment(s[0], SortAssignments(s[1..]))
  }

  /** The keys of the aggregates, in no particular order. */
  method KeysOf(aggregates: map<Key, Aggregate>) returns (order: seq<Key>)
    ensures Distinct(order) && forall key :: key in order <==> key in aggregates
  {
    order := [];
    var rest := aggregates.Keys;
    while rest != {}
      invariant rest <= aggregates.Keys && Distinct(order)
      invariant forall key :: key in order <==> key in aggregates && key !in rest
    {
      var key :| key in rest;
      order, rest := order + [key], rest - {key};
    }
  }

  lemma GatheredAll(profile: Profile, aggregates: map<Key, Aggregate>, order: seq<Key>)
    requires Sized(profile) && Gathered(profile, aggregates, Length(profile), 0)
    requires Distinct(order) && forall key :: key in order <==> key in aggregates
    ensures CompleteOrder(profile, order)
    ensures forall key | key in aggregates ::
              aggregates[key] == Aggregate(|Slots(profile, key, Length(profile))|, Ids(Slots(profile, key, Length(profile))))
  {
    hide Slots, Proper;
    forall key
      ensures key in aggregates <==> Proper(profile, key) && Takes(profile, key)
    {
      assert Seen(profile, key, Length(profile), 0) == Slots(profile, key, Length(profile));
    }
  }

  ghost predicate Listed(profile: Profile, order: seq<Key>, assignments: seq<Assignment>)
    requires Sized(profile)
  {
    |assignments| == |order| && forall j | 0 <= j < |order| :: assignments[j] == AssignmentOf(profile, order[j])
  }

  method BuildAssignments(profile: Profile, aggregates: map<Key, Aggregate>, order: seq<Key>) returns (assignments: seq<Assignment>)
    requires Sized(profile) && forall key | key in order :: key in aggregates && aggregates[key].weekly == |Slots(profile, key, Length(profile))|
    ensures Listed(profile, order, assignments)
  {
    hide Slots, AssignmentId, CohortSubjectId, Length;
    assignments := [];
    for k := 0 to |order|
      invariant |assignments| == k && forall j | 0 <= j < k :: assignments[j] == AssignmentOf(profile, order[j])
    {
      var key := order[k];
      assert key in order;
      var weekly := aggregates[key].weekly;
      assignments := assignments + [Assignment(AssignmentId(profile, key), WORKSPACE, YEAR, TERM, TeacherId(key.teacher), CohortId(key.cohort),
                                               CohortSubjectId(profile, key), SubjectId(key.subject), NO_ID, weekly,
                                               if profile.double then weekly / 2 else 0, true, true)];
    }
  }

  lemma SortedAreFine(profile: Profile, problem: Problem, order: seq<Key>, assignments: seq<Assignment>)
    requires Sized(profile) && CompleteOrder(profile, order) && Listed(profile, order, assignments)
    requires problem.assignments == SortAssignments(assignments)
    ensures FineAssignments(profile, problem)
  {
    hide AssignmentOf, AssignmentId, Proper, Takes, SortAssignments;
    SameElements(assignments, problem.assignments);
    forall i, j | 0 <= i < j < |assignments|
      ensures assignments[i] != assignments[j]
    {
      DifferentKeys(profile, order, i, j);
    }
    DistinctPermutation(assignments, problem.assignments);
    forall a | a in problem.assignments
      ensures exists key :: Proper(profile, key) && Takes(profile, key) && a == AssignmentOf(profile, key)
    {
      var j :| 0 <= j < |assignments| && assignments[j] == a;
      assert order[j] in order;
    }
    forall key | Proper(profile, key) && Takes(profile, key)
      ensures AssignmentOf(profile, key) in problem.assignments
    {
      var j :| 0 <= j < |order| && order[j] == key;
      assert assignments[j] in assignments;
    }
    SortedIds(profile, problem.assignments);
  }

  lemma DifferentKeys(profile: Profile, order: seq<Key>, i: nat, j: nat)
    requires Sized(profile) && GoodOrder(profile, order) && i < j < |order|
    ensures AssignmentOf(profile, order[i]) != AssignmentOf(profile, order[j])
  {
    hide AssignmentOf, AssignmentId, Takes;
    assert order[i] in order && order[j] in order;
    AssignmentHasId(profile, order[i]);
    AssignmentHasId(profile, order[j]);
    if AssignmentId(profile, order[i]) == AssignmentId(profile, order[j]) {
      AssignmentIdsDiffer(profile, order[i], order[j]);
    }
  }

  lemma SortedIds(profile: Profile, list: seq<Assignment>)
    requires Sized(profile) && Distinct(list)
    requires forall a | a in list :: exists key :: Proper(profile, key) && Takes(profile, key) && a == AssignmentOf(profile, key)
    ensures DistinctIds(list)
  {
    hide AssignmentOf, AssignmentId, Takes, Proper;
    forall i, j | 0 <= i < j < |list|
      ensures list[i].id != list[j].id
    {
      assert list[i] in list && list[j] in list;
      var k :| Proper(profile, k) && Takes(profile, k) && list[i] == AssignmentOf(profile, k);
      var l :| Proper(profile, l) && Takes(profile, l) && list[j] == AssignmentOf(profile, l);
      AssignmentHasId(profile, k);
      AssignmentHasId(profile, l);
      if AssignmentId(profile, k) == AssignmentId(profile, l) {
        AssignmentIdsDiffer(profile, k, l);
      }
    }
  }

  // ----- the witness, placement by placement

  lemma NothingBuilt(profile: Profile, problem: Problem, order: seq<Key>)
    requires Sized(profile)
    ensures Built(profile, problem, order, 0, 0, [])
  {
    hide Slots, Schedule;
    forall j: nat, per: Id | j < |order|
      ensures !Claimed(profile, order[j], Progress(profile, order, 0, 0, j), per)
    {
    }
  }

  /** The double lessons of an aggregate. */
  method PlaceDoubles(profile: Profile, problem: Problem, ghost order: seq<Key>, ghost k: nat, key: Key, taken: seq<Id>, before: seq<Placement>)
    returns (ps: seq<Placement>)
    requires Sized(profile) && IsSimulation(profile, problem) && GoodOrder(profile, order) && k < |order| && key == order[k] && profile.double
    requires taken == Ids(Slots(profile, key, Length(profile))) && Built(profile, problem, order, k, 0, before)
    ensures Built(profile, problem, order, k, |Slots(profile, key, Length(profile))|, ps)
  {
    hide *;
    ps := before;
    var a := AssignmentOf(profile, key);
    TakenPeriods(profile, key, taken);
    var r: nat := 0;
    while r + 1 < |taken|
      invariant r <= |taken| && r % Step(profile) == 0 && Built(profile, problem, order, k, r, ps)
    {
      NextTaken(profile, key, taken, r);
      BuildOne(profile, problem, order, k, r, ps);
      ps := ps + [LessonOf(problem, a, [taken[r], taken[r + 1]], true)];
      r := r + 2;
    }
  }

  /** The single lessons of an aggregate. */
  method PlaceSingles(profile: Profile, problem: Problem, ghost order: seq<Key>, ghost k: nat, key: Key, taken: seq<Id>, before: seq<Placement>)
    returns (ps: seq<Placement>)
    requires Sized(profile) && IsSimulation(profile, problem) && GoodOrder(profile, order) && k < |order| && key == order[k] && !profile.double
    requires taken == Ids(Slots(profile, key, Length(profile))) && Built(profile, problem, order, k, 0, before)
    ensures Built(profile, problem, order, k, |Slots(profile, key, Length(profile))|, ps)
  {
    hide *;
    ps := before;
    var a := AssignmentOf(profile, key);
    TakenPeriods(profile, key, taken);
    var r: nat := 0;
    while r < |taken|
      invariant r <= |taken| && r % Step(profile) == 0 && Built(profile, problem, order, k, r, ps)
    {
      NextTaken(profile, key, taken, r);
      BuildOne(profile, problem, order, k, r, ps);
      ps := ps + [LessonOf(problem, a, [taken[r]], false)];
      r := r + 1;
    }
  }

  /** The placements of one lesson. */
  method PlaceLesson(profile: Profile, problem: Problem, order: seq<Key>, k: nat, taken: seq<Id>, before: seq<Placement>) returns (ps: seq<Placement>)
    requires Sized(profile) && IsSimulation(profile, problem) && GoodOrder(profile, order) && k < |order|
    requires taken == Ids(Slots(profile, order[k], Length(profile))) && Built(profile, problem, order, k, 0, before)
    ensures Built(profile, problem, order, k + 1, 0, ps)
  {
    hide *;
    if profile.double {
      ps := PlaceDoubles(profile, problem, order, k, order[k], taken, before);
    } else {
      ps := PlaceSingles(profile, problem, order, k, order[k], taken, before);
    }
    BuildNext(profile, problem, order, k, ps);
  }

  lemma TakenPeriods(profile: Profile, key: Key, taken: seq<Id>)
    requires Sized(profile) && taken == Ids(Slots(profile, key, Length(profile)))
    ensures |taken| == |Slots(profile, key, Length(profile))| && Step(profile) == (if profile.double then 2 else 1)
    ensures profile.double ==> |taken| % 2 == 0
  {
    hide Slots;
    if profile.double {
      LengthIsEven(profile);
      SlotsPair(profile, key, Length(profile) / 2);
    }
  }

  lemma NextTaken(profile: Profile, key: Key, taken: seq<Id>, r: nat)
    requires Sized(profile) && taken == Ids(Slots(profile, key, Length(profile))) && r + Step(profile) <= |Slots(profile, key, Length(profile))|
    ensures r + Step(profile) <= |taken|
    ensures NextPeriods(profile, key, r) == if profile.double then [taken[r], taken[r + 1]] else [taken[r]]
  {
    hide Slots;
  }

  method BuildWitness(profile: Profile, problem: Problem, aggregates: map<Key, Aggregate>, order: seq<Key>) returns (ps: seq<Placement>)
    requires Sized(profile) && IsSimulation(profile, problem) && CompleteOrder(profile, order)
    requires forall key | key in order :: key in aggregates && aggregates[key].taken == Ids(Slots(profile, key, Length(profile)))
    ensures Finished(profile, problem, order, ps)
  {
    assert GoodOrder(profile, order);
    hide *;
    NothingBuilt(profile, problem, order);
    ps := [];
    for k := 0 to |order|
      invariant Built(profile, problem, order, k, 0, ps)
    {
      assert order[k] in order;
      ps := PlaceLesson(profile, problem, order, k, aggregates[order[k]].taken, ps);
    }
    BuiltParts(profile, problem, order, |order|, 0, ps);
    NowFinished(profile, problem, order, ps);
  }

  lemma NowFinished(profile: Profile, problem: Problem, order: seq<Key>, ps: seq<Placement>)
    requires Sized(profile) && Compatible(problem, Schedule(problem), ps) && AllDelivered(profile, order, |order|, 0, ps) && CompleteOrder(profile, order)
    ensures Finished(profile, problem, order, ps)
  {
    hide Compatible, AllDelivered, CompleteOrder;
  }

  lemma TeachersAreFine(profile: Profile, problem: Problem, registrations: set<(Id, Id)>, used: set<(Id, Id)>)
    requires Sized(profile) && Recorded(profile, registrations, used, Length(profile), 0) && problem.registrations == registrations
    requires forall t: nat | t < profile.teachers :: TeacherId(t) in problem.teachers && IsTeacher(profile, used, t, problem.teachers[TeacherId(t)])
    ensures forall t: nat | t < profile.teachers :: FineTeacher(profile, problem, t)
    ensures forall x: (Id, Id) :: x in problem.registrations <==> Registered(profile, Length(profile), 0, x)
  {
    hide KeyAt, CohortSubjectId, Registered;
    forall t: nat, i: nat | i < Length(profile)
      ensures (PeriodId(i), TeacherId(t)) in used <==> Busy(profile, t, i)
    {
      UsedIsBusy(profile, used, t, i);
    }
    hide Used, Recorded, Busy;
  }

  lemma UsedIsBusy(profile: Profile, used: set<(Id, Id)>, t: nat, i: nat)
    requires Sized(profile) && i < Length(profile) && forall x: (Id, Id) :: x in used <==> Used(profile, Length(profile), 0, x)
    ensures (PeriodId(i), TeacherId(t)) in used <==> Busy(profile, t, i)
  {
    hide KeyAt, Length;
    if c: nat :| c < profile.cohorts && KeyAt(profile, c, i).teacher == t {
      assert ReachedAt(profile, Length(profile), 0, c, i);
    }
  }

  method BuildProblem(profile: Profile) returns (problem: Problem, aggregates: map<Key, Aggregate>, order: seq<Key>)
    requires Sized(profile)
    ensures IsSimulation(profile, problem) && CompleteOrder(profile, order)
    ensures forall key | key in order :: key in aggregates && aggregates[key].taken == Ids(Slots(profile, key, Length(profile)))
  {
    hide Slots, KeyAt, Length, Gathered, Recorded, FineTeacher, FineAssignments, CompleteOrder, Listed, IsTeacher, SortAssignments, PeriodAt,
         FinePeriods, IsSimulation;
    var periods := BuildPeriods(profile);
    var registrations, used;
    aggregates, registrations, used := BuildAggregates(profile);
    order := KeysOf(aggregates);
    GatheredAll(profile, aggregates, order);
    var teachers := BuildTeachers(profile, used);
    var cohorts := BuildCohorts(profile);
    var assignments := BuildAssignments(profile, aggregates, order);
    problem := Problem(WORKSPACE, YEAR, TERM, periods, teachers, cohorts, map[], map[], SortAssignments(assignments), [], [], registrations, true, []);
    SortedAreFine(profile, problem, order, assignments);
    TeachersAreFine(profile, problem, registrations, used);
    NowSimulation(profile, problem);
  }

  lemma NowSimulation(profile: Profile, problem: Problem)
    requires Sized(profile) && FinePeriods(profile, problem.periods) && FineAssignments(profile, problem)
    requires problem.workspace == WORKSPACE && problem.year == YEAR && problem.term == TERM && problem.fullCoverage
    requires problem.learners == map[] && problem.groups == [] && problem.blocks == [] && problem.resources == map[]
    requires forall id: Id :: id in problem.teachers <==> 1 <= id <= profile.teachers
    requires forall t: nat | t < profile.teachers :: FineTeacher(profile, problem, t)
    requires forall id: Id :: id in problem.cohorts <==> 1 <= id <= profile.cohorts
    requires forall id | id in problem.cohorts :: problem.cohorts[id].workspace == WORKSPACE && problem.cohorts[id].unavailable == {}
    requires forall x: (Id, Id) :: x in problem.registrations <==> Registered(profile, Length(profile), 0, x)
    ensures IsSimulation(profile, problem)
  {
    hide FinePeriods, FineAssignments, FineTeacher, KeyAt, Registered;
  }

  /** A problem of the given size with a timetable that solves it: the timetable passes the validator with no hard conflict and
      nothing unscheduled, and the preflight accepts the problem. */
  method GenerateFeasibleSimulation(profile: Profile) returns (problem: Problem, ps: seq<Placement>)
    requires Sized(profile)
    ensures IsSimulation(profile, problem) && ValidSchedule(problem, ps) && Necessity.Witness(problem, ps)
    ensures Length(profile) > 0 ==> Preflight.Feasible(problem)
  {
    hide *;
    var aggregates, order;
    problem, aggregates, order := BuildProblem(profile);
    ps := BuildWitness(profile, problem, aggregates, order);
    WitnessIsValid(profile, problem, order, ps);
    if Length(profile) > 0 {
      SimulationIsWellFormed(profile, problem);
      SimulationIsSettled(profile, problem);
      Necessity.SolvableIsFeasible(problem, ps);
    }
  }

  lemma SimulationIsSettled(profile: Profile, problem: Problem)
    requires Sized(profile) && IsSimulation(profile, problem) && Length(profile) > 0
    ensures Necessity.Settled(problem)
  {
    hide FineTeacher, FineAssignments, KeyAt, CohortSubjectId;
    UsablePeriodsElements(problem);
    assert problem.periods[0] in problem.periods;
    assert problem.periods[0] in UsablePeriods(problem);
    forall p, q | p in problem.periods && q in problem.periods && p != q
      ensures p.day != q.day || p.index != q.index
    {
      var i :| 0 <= i < |problem.periods| && problem.periods[i] == p;
      var j :| 0 <= j < |problem.periods| && problem.periods[j] == q;
      SlotsApart(profile, i, j);
    }
  }

  /** No two periods share a place in the week. */
  lemma SlotsApart(profile: Profile, i: nat, j: nat)
    requires profile.perDay > 0 && i != j
    ensures PeriodAt(profile, i).day != PeriodAt(profile, j).day || PeriodAt(profile, i).index != PeriodAt(profile, j).index
  {
    var n := profile.perDay;
    assert i == n * (i / n) + i % n && j == n * (j / n) + j % n;
  }
}

/** `repairSingles`: the two-lesson exchange that opens a cell for a lesson that fits nowhere. */
module Repair {
  import opened Model
  import opened Lessons
  import opened Ledger
  import opened AttemptState
  import opened Engine
  import opened Filling
  import Preflight
  import Agreement

  /** The occupancy after a lesson of this teacher and cohort moved to another period. */
  function Moved(o: Occupancy, teacher: Id, cohort: Id, from: Id, to: Id): Occupancy {
    o.(teachers := o.teachers - {(teacher, from)} + {(teacher, to)}, cohorts := o.cohorts - {(cohort, from)} + {(cohort, to)})
  }

  /** The lesson can be moved to `hole`. */
  predicate Movable(problem: Problem, assignments: map<Id, Assignment>, o: Occupancy, p: Placement, hole: Id) {
    && !p.double && |p.periods| == 1 && p.assignment in assignments && assignments[p.assignment].resource == NO_ID
    && (p.cohort, hole) !in o.cohorts && (assignments[p.assignment].teacher, hole) !in o.teachers
    && !TeacherBlocked(problem, assignments[p.assignment].teacher, hole) && !CohortBlocked(problem, p.cohort, hole)
  }

  function Without(ps: seq<Placement>, i: nat): seq<Placement>
    requires i < |ps|
  {
    ps[..i] + ps[i + 1..]
  }

  lemma WithoutAndBack(ps: seq<Placement>, i: nat, m: Placement)
    requires i < |ps|
    ensures multiset(Without(ps, i) + [m]) == multiset(ps[i := m])
    ensures forall p | p in Without(ps, i) :: p in ps
    ensures forall p | p in ps :: p in Without(ps, i) || p == ps[i]
  {
    assert ps[i := m] == ps[..i] + [m] + ps[i + 1..];
    assert ps == ps[..i] + [ps[i]] + ps[i + 1..];
  }

  lemma WithoutExclusive(kind: Kind, ps: seq<Placement>, i: nat)
    requires i < |ps| && AtMostOnce(Bookings(kind, ps))
    ensures AtMostOnce(Bookings(kind, Without(ps, i)))
    ensures forall k: Id, per: Id | k in Keys(kind, ps[i]) && per in ps[i].periods :: !Booked(kind, Without(ps, i), k, per)
  {
    BookingsRemove(kind, ps, i);
    SumOnce(Bookings(kind, Without(ps, i)), Pairs(Keys(kind, ps[i]), ps[i].periods));
    hide Bookings, Keys, Pairs, AtMostOnce, Booked;
    forall k: Id, per: Id | k in Keys(kind, ps[i]) && per in ps[i].periods
      ensures !Booked(kind, Without(ps, i), k, per)
    {
      PairsMember(Keys(kind, ps[i]), ps[i].periods, k, per);
      BookedIffCounted(kind, Without(ps, i), k, per);
    }
  }

  lemma WithoutResource(problem: Problem, ps: seq<Placement>, i: nat)
    requires i < |ps| && forall x :: Bookings(ResourceUse, ps)[x] <= Capacity(problem, x.0)
    ensures forall x :: Bookings(ResourceUse, Without(ps, i))[x] <= Capacity(problem, x.0)
  {
    BookingsRemove(ResourceUse, ps, i);
    hide Bookings, Keys, Pairs, Capacity;
    forall x ensures Bookings(ResourceUse, Without(ps, i))[x] <= Capacity(problem, x.0) {
      assert Bookings(ResourceUse, ps)[x] <= Capacity(problem, x.0);
    }
  }

  lemma WithoutCompatible(problem: Problem, assignments: map<Id, Assignment>, ps: seq<Placement>, i: nat)
    requires Compatible(problem, assignments, ps) && i < |ps|
    ensures Compatible(problem, assignments, Without(ps, i))
  {
    hide LegalLesson, Bookings, Keys, Pairs, Capacity, AtMostOnce, Without, Booked;
    WithoutAndBack(ps, i, ps[i]);
    WithoutExclusive(TeacherUse, ps, i);
    WithoutExclusive(CohortUse, ps, i);
    WithoutResource(problem, ps, i);
  }

  lemma SumOnce(a: multiset<(Id, Id)>, b: multiset<(Id, Id)>)
    requires AtMostOnce(a + b)
    ensures AtMostOnce(a) && forall x :: !(x in a && x in b)
  {
    forall x
      ensures a[x] <= 1 && !(x in a && x in b)
    {
      assert (a + b)[x] <= 1;
    }
  }

  /** The moved lesson. */
  function Reseat(p: Placement, hole: Id): Placement {
    p.(periods := [hole])
  }

  lemma ReseatLegal(problem: Problem, o: Occupancy, p: Placement, hole: Id)
    requires WellFormed(problem) && LegalLesson(problem, Schedule(problem), p)
    requires Movable(problem, Schedule(problem), o, p, hole) && UsableId(problem, hole)
    ensures LegalLesson(problem, Schedule(problem), Reseat(p, hole)) && Reseat(p, hole).resource == NO_ID
    ensures Reseat(p, hole).teacher == Schedule(problem)[p.assignment].teacher
  {
    hide Schedule, WellFormed;
  }

  lemma ReseatFree(o: Occupancy, ps: seq<Placement>, i: nat, m: Placement, hole: Id)
    requires Mirrors(o, ps) && i < |ps| && m.periods == [hole] && (m.cohort, hole) !in o.cohorts && (m.teacher, hole) !in o.teachers
    ensures Free(Without(ps, i), m)
  {
    hide Bookings, Without, Keys;
    WithoutAndBack(ps, i, m);
    assert !Booked(TeacherUse, ps, m.teacher, hole) && !Booked(CohortUse, ps, m.cohort, hole);
  }

  lemma ReseatCompatible(problem: Problem, o: Occupancy, ps: seq<Placement>, i: nat, hole: Id)
    requires WellFormed(problem) && Mirrors(o, ps) && Compatible(problem, Schedule(problem), ps) && i < |ps|
    requires Movable(problem, Schedule(problem), o, ps[i], hole) && UsableId(problem, hole)
    ensures Compatible(problem, Schedule(problem), Without(ps, i) + [Reseat(ps[i], hole)])
  {
    var m := Reseat(ps[i], hole);
    assert LegalLesson(problem, Schedule(problem), ps[i]);
    hide WellFormed, Mirrors, Schedule, LegalLesson, Compatible, Bookings, Without, UsableId;
    ReseatLegal(problem, o, ps[i], hole);
    WithoutCompatible(problem, Schedule(problem), ps, i);
    ReseatFree(o, ps, i, m, hole);
    PlaceKeepsCompatible(problem, Schedule(problem), Without(ps, i), m);
  }

  lemma ReseatCounts(ps: seq<Placement>, i: nat, hole: Id, id: Id)
    requires i < |ps| && |ps[i].periods| == 1
    ensures Credit(Without(ps, i) + [Reseat(ps[i], hole)], id) == Credit(ps, id)
    ensures DoubleCount(Without(ps, i) + [Reseat(ps[i], hole)], id) == DoubleCount(ps, id)
  {
    var m := Reseat(ps[i], hole);
    CreditRemove(ps, i, id);
    DoubleCountRemove(ps, i, id);
    CreditAppend(Without(ps, i), m, id);
    DoubleCountAppend(Without(ps, i), m, id);
    hide Credit, DoubleCount;
    assert AssignmentIds(m) == AssignmentIds(ps[i]);
  }

  /** The books after the move. */
  function Reseated(b: Books<Id>, i: nat, hole: Id): Books<Id>
    requires i < |b.placements|
  {
    b.(placements := b.placements[i := Reseat(b.placements[i], hole)])
  }

  lemma ReseatKeeps(problem: Problem, o: Occupancy, b: Books<Id>, i: nat, hole: Id)
    requires WellFormed(problem) && Mirrors(o, b.placements) && Kept(problem, b) && i < |b.placements|
    requires Movable(problem, Schedule(problem), o, b.placements[i], hole) && UsableId(problem, hole)
    ensures Kept(problem, Reseated(b, i, hole))
  {
    var ps := b.placements;
    var m := Reseat(ps[i], hole);
    hide *;
    assert |ps[i].periods| == 1 by {
      MovableIsSingle(problem, o, ps[i], hole);
    }
    KeptParts(problem, b);
    ReseatCompatible(problem, o, ps, i, hole);
    forall id: Id
      ensures Credit(Without(ps, i) + [m], id) == Credit(ps, id) && DoubleCount(Without(ps, i) + [m], id) == DoubleCount(ps, id)
    {
      ReseatCounts(ps, i, hole, id);
    }
    WithoutAndBack(ps, i, m);
    SameBalance(problem, b, Without(ps, i) + [m]);
    PermutationKeeps(problem, b.(placements := Without(ps, i) + [m]), ps[i := m]);
  }

  lemma MovableIsSingle(problem: Problem, o: Occupancy, p: Placement, hole: Id)
    requires Movable(problem, Schedule(problem), o, p, hole)
    ensures |p.periods| == 1
  {
  }

  lemma KeptParts(problem: Problem, b: Books<Id>)
    requires Kept(problem, b)
    ensures Compatible(problem, Schedule(problem), b.placements) && Balanced(Schedule(problem), b)
  {
  }

  lemma SameBalance(problem: Problem, b: Books<Id>, ps: seq<Placement>)
    requires Balanced(Schedule(problem), b) && Compatible(problem, Schedule(problem), ps)
    requires forall id: Id :: Credit(ps, id) == Credit(b.placements, id) && DoubleCount(ps, id) == DoubleCount(b.placements, id)
    ensures Kept(problem, b.(placements := ps))
  {
    hide Compatible, Schedule, Credit, DoubleCount;
  }

  // ----- the occupancy after the move

  lemma BookedRest(kind: Kind, ps: seq<Placement>, i: nat, m: Placement, k: Id, per: Id)
    requires i < |ps|
    ensures Booked(kind, ps, k, per) <==> Booked(kind, Without(ps, i), k, per) || (k in Keys(kind, ps[i]) && per in ps[i].periods)
    ensures Booked(kind, ps[i := m], k, per) <==> Booked(kind, Without(ps, i), k, per) || (k in Keys(kind, m) && per in m.periods)
  {
    WithoutAndBack(ps, i, m);
    SameElements(Without(ps, i) + [m], ps[i := m]);
    hide Keys, Without;
    assert forall p :: p in Without(ps, i) + [m] <==> p in Without(ps, i) || p == m;
  }

  lemma ReseatShowsAt(occupied: set<(Id, Id)>, kind: Kind, ps: seq<Placement>, i: nat, key: Id, from: Id, hole: Id, k: Id, per: Id)
    requires i < |ps| && ps[i].periods == [from] && ((k, per) in occupied <==> Booked(kind, ps, k, per))
    requires Keys(kind, ps[i]) == [key] == Keys(kind, Reseat(ps[i], hole))
    requires !Booked(kind, Without(ps, i), key, from)
    ensures (k, per) in occupied - {(key, from)} + {(key, hole)} <==> Booked(kind, ps[i := Reseat(ps[i], hole)], k, per)
  {
    hide Keys, Booked, Without;
    BookedRest(kind, ps, i, Reseat(ps[i], hole), k, per);
  }

  lemma ReseatShows(occupied: set<(Id, Id)>, kind: Kind, ps: seq<Placement>, i: nat, key: Id, from: Id, hole: Id)
    requires Shows(occupied, kind, ps) && i < |ps| && ps[i].periods == [from]
    requires Keys(kind, ps[i]) == [key] == Keys(kind, Reseat(ps[i], hole))
    requires AtMostOnce(Bookings(kind, ps))
    ensures Shows(occupied - {(key, from)} + {(key, hole)}, kind, ps[i := Reseat(ps[i], hole)])
  {
    hide Keys, Booked, Without, Bookings, AtMostOnce, Reseat;
    WithoutExclusive(kind, ps, i);
    assert !Booked(kind, Without(ps, i), key, from);
    forall k: Id, per: Id
      ensures (k, per) in occupied - {(key, from)} + {(key, hole)} <==> Booked(kind, ps[i := Reseat(ps[i], hole)], k, per)
    {
      ReseatShowsAt(occupied, kind, ps, i, key, from, hole, k, per);
    }
  }

  lemma IdleShows(occupied: set<(Id, Id)>, kind: Kind, ps: seq<Placement>, i: nat, hole: Id)
    requires Shows(occupied, kind, ps) && i < |ps| && Keys(kind, ps[i]) == [] == Keys(kind, Reseat(ps[i], hole))
    ensures Shows(occupied, kind, ps[i := Reseat(ps[i], hole)])
  {
    var m := Reseat(ps[i], hole);
    hide Keys, Booked, Without;
    forall k: Id, per: Id
      ensures (k, per) in occupied <==> Booked(kind, ps[i := m], k, per)
    {
      BookedRest(kind, ps, i, m, k, per);
    }
  }

  lemma IdleBookings(kind: Kind, ps: seq<Placement>, i: nat, m: Placement)
    requires i < |ps| && Keys(kind, ps[i]) == [] == Keys(kind, m) && |ps[i].periods| == 1 == |m.periods|
    ensures Bookings(kind, ps[i := m]) == Bookings(kind, ps)
  {
    WithoutAndBack(ps, i, m);
    BookingsPermutation(kind, Without(ps, i) + [m], ps[i := m]);
    BookingsAppend(kind, Without(ps, i), m);
    BookingsRemove(kind, ps, i);
    assert Pairs([], m.periods) == multiset{} == Pairs([], ps[i].periods);
    hide Bookings, Keys;
  }

  lemma ReseatMirrors(problem: Problem, o: Occupancy, ps: seq<Placement>, i: nat, hole: Id)
    requires WellFormed(problem) && Mirrors(o, ps) && Compatible(problem, Schedule(problem), ps) && i < |ps|
    requires Movable(problem, Schedule(problem), o, ps[i], hole)
    ensures Mirrors(Moved(o, ps[i].teacher, ps[i].cohort, ps[i].periods[0], hole), ps[i := Reseat(ps[i], hole)])
  {
    hide *;
    CompatibleParts(problem, ps, i);
    MirrorsParts(o, ps);
    PlainKeys(problem, o, ps[i], hole);
    var p, m, from := ps[i], Reseat(ps[i], hole), ps[i].periods[0];
    assert p.periods == [from];
    IdleShows(o.learners, LearnerUse, ps, i, hole);
    IdleShows(o.groups, GroupUse, ps, i, hole);
    ReseatShows(o.teachers, TeacherUse, ps, i, p.teacher, from, hole);
    ReseatShows(o.cohorts, CohortUse, ps, i, p.cohort, from, hole);
    IdleBookings(ResourceUse, ps, i, m);
    MirrorsMoved(o, ps[i := m], p, from, hole, ps);
  }

  lemma CompatibleParts(problem: Problem, ps: seq<Placement>, i: nat)
    requires Compatible(problem, Schedule(problem), ps) && i < |ps|
    ensures LegalLesson(problem, Schedule(problem), ps[i])
    ensures AtMostOnce(Bookings(TeacherUse, ps)) && AtMostOnce(Bookings(CohortUse, ps))
  {
    hide LegalLesson, Bookings, AtMostOnce, Schedule;
  }

  lemma MirrorsParts(o: Occupancy, ps: seq<Placement>)
    requires Mirrors(o, ps)
    ensures Shows(o.teachers, TeacherUse, ps) && Shows(o.cohorts, CohortUse, ps)
    ensures Shows(o.learners, LearnerUse, ps) && Shows(o.groups, GroupUse, ps)
  {
    hide Shows;
  }

  lemma MirrorsMoved(o: Occupancy, after: seq<Placement>, p: Placement, from: Id, hole: Id, ps: seq<Placement>)
    requires Mirrors(o, ps) && Bookings(ResourceUse, after) == Bookings(ResourceUse, ps)
    requires Shows(o.teachers - {(p.teacher, from)} + {(p.teacher, hole)}, TeacherUse, after)
    requires Shows(o.cohorts - {(p.cohort, from)} + {(p.cohort, hole)}, CohortUse, after)
    requires Shows(o.learners, LearnerUse, after) && Shows(o.groups, GroupUse, after)
    ensures Mirrors(Moved(o, p.teacher, p.cohort, from, hole), after)
  {
    hide Shows, Bookings;
  }

  lemma PlainKeys(problem: Problem, o: Occupancy, p: Placement, hole: Id)
    requires WellFormed(problem) && LegalLesson(problem, Schedule(problem), p) && Movable(problem, Schedule(problem), o, p, hole)
    ensures var m := Reseat(p, hole);
            && |p.periods| == 1 && m.periods == [hole]
            && Keys(TeacherUse, p) == [p.teacher] == Keys(TeacherUse, m) && Keys(CohortUse, p) == [p.cohort] == Keys(CohortUse, m)
            && Keys(LearnerUse, p) == [] == Keys(LearnerUse, m) && Keys(GroupUse, p) == [] == Keys(GroupUse, m)
            && Keys(ResourceUse, p) == [] == Keys(ResourceUse, m)
  {
    hide Schedule;
    CohortKeys(problem, Schedule(problem), p);
    hide WellFormed, WellShaped, OpenCell;
  }

  // ----- the exchange

  /** The lesson occupies the cell that a lesson of this cohort needs in `per`. */
  predicate Blocks(p: Placement, cohort: Id, per: Id) {
    !p.double && p.cohort == cohort && p.periods == [per]
  }

  /** The assignment wants a lesson, cannot have this period because its cohort is busy, and its teacher could teach then. */
  predicate WantsPeriod(problem: Problem, assignments: map<Id, Assignment>, o: Occupancy, b: Books<Id>, id: Id, per: Id) {
    && id in assignments && Wants(b, id, false) && assignments[id].resource == NO_ID
    && (assignments[id].teacher, per) !in o.teachers && !TeacherBlocked(problem, assignments[id].teacher, per)
  }

  /** Moving the `i`-th lesson to `hole` makes room for a lesson of assignment `id` in `per`. */
  ghost predicate Opens(problem: Problem, assignments: map<Id, Assignment>, o: Occupancy, b: Books<Id>, id: Id, per: Id, i: nat, hole: Id) {
    && WantsPeriod(problem, assignments, o, b, id, per) && i < |b.placements|
    && Blocks(b.placements[i], assignments[id].cohort, per) && Movable(problem, assignments, o, b.placements[i], hole)
  }

  function Repaired(problem: Problem, b: Books<Id>, target: Assignment, per: Id, i: nat, hole: Id): Books<Id>
    requires i < |b.placements|
  {
    Enter(Reseated(b, i, hole), LessonOf(problem, target, [per], false), target.id)
  }

  lemma HoleIsElsewhere(problem: Problem, o: Occupancy, ps: seq<Placement>, i: nat, per: Id, hole: Id)
    requires WellFormed(problem) && Mirrors(o, ps) && Compatible(problem, Schedule(problem), ps) && i < |ps|
    requires ps[i].periods == [per] && Movable(problem, Schedule(problem), o, ps[i], hole)
    ensures hole != per && (ps[i].cohort, per) in o.cohorts
  {
    CompatibleParts(problem, ps, i);
    hide Schedule, WellFormed, Movable, Compatible, Bookings;
    PlainKeys(problem, o, ps[i], hole);
    hide Keys;
    assert Booked(CohortUse, ps, ps[i].cohort, per);
    hide LegalLesson;
    assert (ps[i].cohort, hole) !in o.cohorts by {
      MovableCohort(problem, o, ps[i], hole);
    }
  }

  lemma MovableCohort(problem: Problem, o: Occupancy, p: Placement, hole: Id)
    requires Movable(problem, Schedule(problem), o, p, hole)
    ensures (p.cohort, hole) !in o.cohorts
  {
  }

  lemma OpenedPeriod(problem: Problem, a: Assignment, p: Placement, per: Id)
    requires LegalLesson(problem, Schedule(problem), p) && Blocks(p, a.cohort, per)
    requires a.resource == NO_ID && !TeacherBlocked(problem, a.teacher, per)
    ensures OpenCell(problem, a, per)
  {
    assert OpenCell(problem, Schedule(problem)[p.assignment], per);
    hide Schedule, WellShaped;
  }

  lemma MovedIsFree(problem: Problem, o: Occupancy, a: Assignment, teacher: Id, from: Id, hole: Id)
    requires OpenCell(problem, a, from) && a.resource == NO_ID && (a.teacher, from) !in o.teachers && hole != from
    ensures FreeCell(problem, Moved(o, teacher, a.cohort, from, hole), a, from)
  {
    hide OpenCell;
  }

  lemma OnePeriodPlaceable(problem: Problem, o: Occupancy, b: Books<Id>, a: Assignment, per: Id)
    requires a.id in Schedule(problem) && Schedule(problem)[a.id] == a && Wants(b, a.id, false)
    requires LocalTeacher(problem, a.teacher) && LocalCohort(problem, a.cohort) && FreeCell(problem, o, a, per)
    ensures Placeable(problem, o, b, a, [per], false)
  {
    hide Schedule, FreeCell, LocalTeacher, LocalCohort;
  }

  /** After the move, the lesson can be placed. */
  lemma OpenedIsPlaceable(problem: Problem, o: Occupancy, b: Books<Id>, id: Id, per: Id, i: nat, hole: Id)
    requires WellFormed(problem) && Preflight.Feasible(problem) && Mirrors(o, b.placements) && Kept(problem, b)
    requires Opens(problem, Schedule(problem), o, b, id, per, i, hole)
    ensures Placeable(problem, Moved(o, b.placements[i].teacher, b.placements[i].cohort, per, hole), Reseated(b, i, hole), Schedule(problem)[id], [per], false)
  {
    var a, p := Schedule(problem)[id], b.placements[i];
    hide *;
    ScheduleEntries(problem);
    KeptParts(problem, b);
    CompatibleParts(problem, b.placements, i);
    OpensParts(problem, o, b, id, per, i, hole);
    HoleIsElsewhere(problem, o, b.placements, i, per, hole);
    OpenedPeriod(problem, a, p, per);
    Agreement.FeasibleAssignment(problem, a);
    BookableEnds(problem, a);
    MovedIsFree(problem, o, a, p.teacher, per, hole);
    OnePeriodPlaceable(problem, Moved(o, p.teacher, p.cohort, per, hole), Reseated(b, i, hole), a, per);
  }

  lemma BookableEnds(problem: Problem, a: Assignment)
    requires Preflight.Bookable(problem, a)
    ensures LocalTeacher(problem, a.teacher) && LocalCohort(problem, a.cohort)
  {
  }

  lemma OpensParts(problem: Problem, o: Occupancy, b: Books<Id>, id: Id, per: Id, i: nat, hole: Id)
    requires Opens(problem, Schedule(problem), o, b, id, per, i, hole) && WellFormed(problem)
    ensures id in Schedule(problem) && Schedule(problem)[id] in problem.assignments && Schedulable(problem, Schedule(problem)[id])
    ensures var a, p := Schedule(problem)[id], b.placements[i];
            && a.id == id && a.resource == NO_ID && (a.teacher, per) !in o.teachers && !TeacherBlocked(problem, a.teacher, per)
            && Blocks(p, a.cohort, per) && p.cohort == a.cohort && p.periods == [per] && Movable(problem, Schedule(problem), o, p, hole)
            && Wants(Reseated(b, i, hole), id, false)
  {
    ScheduleEntries(problem);
    hide Schedule, Movable, WellFormed;
  }

  /** The exchange itself. */
  method Exchange(problem: Problem, state: State<Id>, assignments: map<Id, Assignment>, id: Id, per: Id, i: nat, hole: Id)
    requires WellFormed(problem) && Preflight.Feasible(problem) && assignments == Schedule(problem) && InOrder(problem, state)
    requires UsableId(problem, hole) && Opens(problem, assignments, state.occupancy, state.books, id, per, i, hole)
    modifies state`books, state`occupancy
    ensures InOrder(problem, state) && state.books == Repaired(problem, old(state.books), assignments[id], per, i, hole)
  {
    ghost var o, b := state.occupancy, state.books;
    ScheduleEntries(problem);
    hide WellFormed, Schedule, Preflight.Feasible, Mirrors, Kept, UsableId, Placeable, Moved, Movable, Reseat, Wants;
    KeptParts(problem, b);
    OpenedIsPlaceable(problem, o, b, id, per, i, hole);
    ReseatMirrors(problem, o, b.placements, i, hole);
    ReseatKeeps(problem, o, b, i, hole);
    var blocking := state.books.placements[i];
    state.occupancy := Moved(state.occupancy, blocking.teacher, blocking.cohort, per, hole);
    state.books := Reseated(state.books, i, hole);
    Place(problem, state, assignments[id], [per], false);
  }

  /** Every lesson is still there, in the same place or, if it is a single one, with another period. */
  ghost predicate Resettled(before: seq<Placement>, after: seq<Placement>) {
    |before| <= |after| && forall i | 0 <= i < |before| :: after[i] == before[i] || MovedLesson(before[i], after[i])
  }

  ghost predicate MovedLesson(p: Placement, q: Placement) {
    !p.double && |p.periods| == 1 && |q.periods| == 1 && q == p.(periods := q.periods)
  }

  lemma ResettledFurther(a: seq<Placement>, b: seq<Placement>, c: seq<Placement>)
    requires Resettled(a, b) && Resettled(b, c)
    ensures Resettled(a, c)
  {
  }

  lemma ResettledNot(a: seq<Placement>)
    ensures Resettled(a, a)
  {
  }

  lemma ExchangeResettles(problem: Problem, b: Books<Id>, target: Assignment, per: Id, i: nat, hole: Id)
    requires i < |b.placements| && Blocks(b.placements[i], target.cohort, per)
    ensures Resettled(b.placements, Repaired(problem, b, target, per, i, hole).placements)
  {
  }

  /** A step that leaves less to be placed, keeps the room for doubles and keeps every lesson, though it may move single ones. */
  ghost predicate Improves(problem: Problem, before: Books<Id>, after: Books<Id>) {
    Advances(before, after) && Outstanding(problem, after) < Outstanding(problem, before) && Resettled(before.placements, after.placements)
  }

  lemma RepairedReserves(problem: Problem, b: Books<Id>, id: Id, per: Id, i: nat, hole: Id)
    requires id in Schedule(problem) && Schedule(problem)[id].id == id && Wants(b, id, false) && i < |b.placements|
    requires Reserved(b) && Kept(problem, Reseated(b, i, hole))
    ensures Reserved(Repaired(problem, b, Schedule(problem)[id], per, i, hole))
  {
    hide Schedule, Kept;
    EnterReserves(problem, Reseated(b, i, hole), Schedule(problem)[id], [per], false);
  }

  lemma RepairedShrinks(problem: Problem, b: Books<Id>, a: Assignment, per: Id, i: nat, hole: Id)
    requires a.id in b.remaining && a.id in b.doubles && i < |b.placements|
    ensures Shrinks(b, Repaired(problem, b, a, per, i, hole))
    ensures Left(Repaired(problem, b, a, per, i, hole).remaining, a.id) < Left(b.remaining, a.id)
  {
  }

  lemma RepairedImproves(problem: Problem, b: Books<Id>, id: Id, per: Id, i: nat, hole: Id)
    requires WellFormed(problem) && Kept(problem, b) && id in Schedule(problem) && Wants(b, id, false) && i < |b.placements|
    requires Kept(problem, Reseated(b, i, hole)) && Blocks(b.placements[i], Schedule(problem)[id].cohort, per)
    ensures Improves(problem, b, Repaired(problem, b, Schedule(problem)[id], per, i, hole))
  {
    ExchangeResettles(problem, b, Schedule(problem)[id], per, i, hole);
    hide Schedule, WellFormed, Kept, Compatible, Outstanding, Credit, DoubleCount, Repaired, Reserved, Shrinks, Wants, Reseated, Resettled, Blocks;
    ScheduleEntries(problem);
    KeptParts(problem, b);
    RepairedShrinks(problem, b, Schedule(problem)[id], per, i, hole);
    OutstandingShrinks(problem, b, Repaired(problem, b, Schedule(problem)[id], per, i, hole), id);
    if Reserved(b) {
      RepairedReserves(problem, b, id, per, i, hole);
    }
  }

  /** The first lesson that occupies the cell. */
  method FindBlocking(ps: seq<Placement>, cohort: Id, per: Id) returns (i: nat)
    ensures i <= |ps| && (i < |ps| ==> Blocks(ps[i], cohort, per))
    ensures forall j | 0 <= j < i :: !Blocks(ps[j], cohort, per)
  {
    i := 0;
    while i < |ps| && !Blocks(ps[i], cohort, per)
      invariant i <= |ps| && forall j | 0 <= j < i :: !Blocks(ps[j], cohort, per)
    {
      i := i + 1;
    }
  }

  /** The first period the lesson can move to. */
  method FindHole(problem: Problem, assignments: map<Id, Assignment>, o: Occupancy, p: Placement, periods: seq<Id>) returns (k: nat)
    ensures k <= |periods| && (k < |periods| ==> Movable(problem, assignments, o, p, periods[k]))
    ensures forall j | 0 <= j < k :: !Movable(problem, assignments, o, p, periods[j])
  {
    hide Movable;
    k := 0;
    while k < |periods| && !Movable(problem, assignments, o, p, periods[k])
      invariant k <= |periods| && forall j | 0 <= j < k :: !Movable(problem, assignments, o, p, periods[j])
    {
      k := k + 1;
    }
  }

  /** No exchange lets the assignment use the period. */
  ghost predicate NoExchangeAt(problem: Problem, assignments: map<Id, Assignment>, o: Occupancy, b: Books<Id>, periods: seq<Id>, id: Id, per: Id) {
    forall i: nat, hole: Id | hole in periods :: !Opens(problem, assignments, o, b, id, per, i, hole)
  }

  /** No exchange lets the assignment use any of the periods. */
  ghost predicate NoExchangeFor(problem: Problem, assignments: map<Id, Assignment>, o: Occupancy, b: Books<Id>, periods: seq<Id>, id: Id) {
    forall per | per in periods :: NoExchangeAt(problem, assignments, o, b, periods, id, per)
  }

  lemma SameLesson(problem: Problem, ps: seq<Placement>, i: nat, j: nat, cohort: Id, per: Id)
    requires WellFormed(problem) && Compatible(problem, Schedule(problem), ps) && i < |ps| && j < |ps|
    requires Blocks(ps[i], cohort, per) && Blocks(ps[j], cohort, per)
    ensures i == j
  {
    CompatibleParts(problem, ps, i);
    CompatibleParts(problem, ps, j);
    assert per in ps[i].periods && per in ps[j].periods && ps[i].cohort == ps[j].cohort;
    hide *;
    ExclusiveIffNoClash(CohortUse, ps);
    CohortKeys(problem, Schedule(problem), ps[i]);
    CohortKeys(problem, Schedule(problem), ps[j]);
    NeverTwice(ps, i, j, ps[i].cohort, per);
  }

  lemma NeverTwice(ps: seq<Placement>, i: nat, j: nat, cohort: Id, per: Id)
    requires NoClash(CohortUse, ps) && i < |ps| && j < |ps| && per in ps[i].periods && per in ps[j].periods
    requires cohort in Keys(CohortUse, ps[i]) && cohort in Keys(CohortUse, ps[j])
    ensures i == j
  {
    hide Keys;
  }

  lemma NoneOpens(problem: Problem, o: Occupancy, b: Books<Id>, periods: seq<Id>, id: Id, per: Id, i: nat)
    requires WellFormed(problem) && Kept(problem, b) && id in Schedule(problem) && i <= |b.placements|
    requires forall j | 0 <= j < i :: !Blocks(b.placements[j], Schedule(problem)[id].cohort, per)
    requires i < |b.placements| ==> Blocks(b.placements[i], Schedule(problem)[id].cohort, per)
    requires i < |b.placements| ==> forall hole | hole in periods :: !Movable(problem, Schedule(problem), o, b.placements[i], hole)
    ensures NoExchangeAt(problem, Schedule(problem), o, b, periods, id, per)
  {
    KeptParts(problem, b);
    hide Schedule, WellFormed, Compatible, Balanced, Movable, Blocks, WantsPeriod, Kept;
    forall j: nat, hole: Id | hole in periods && Opens(problem, Schedule(problem), o, b, id, per, j, hole)
      ensures false
    {
      if i < |b.placements| {
        SameLesson(problem, b.placements, i, j, Schedule(problem)[id].cohort, per);
      }
    }
  }

  /** Looks for an exchange that lets assignment `id` use the period. */
  method RepairAt(problem: Problem, state: State<Id>, assignments: map<Id, Assignment>, id: Id, per: Id, periods: seq<Id>) returns (repaired: bool)
    requires WellFormed(problem) && Preflight.Feasible(problem) && assignments == Schedule(problem) && InOrder(problem, state)
    requires (forall hole | hole in periods :: UsableId(problem, hole)) && id in assignments && Wants(state.books, id, false)
    requires assignments[id].resource == NO_ID
    modifies state`books, state`occupancy
    ensures InOrder(problem, state)
    ensures repaired ==> Improves(problem, old(state.books), state.books)
    ensures !repaired ==> state.books == old(state.books) && state.occupancy == old(state.occupancy)
    ensures !repaired ==> NoExchangeAt(problem, assignments, state.occupancy, state.books, periods, id, per)
  {
    hide WellFormed, Schedule, Preflight.Feasible, Mirrors, Kept, UsableId, Movable, Wants, Blocks, Improves, Repaired, Reseated;
    var o, b := state.occupancy, state.books;
    if !WantsPeriod(problem, assignments, o, b, id, per) {
      return false;
    }
    var i := FindBlocking(b.placements, assignments[id].cohort, per);
    if i == |b.placements| {
      NoneOpens(problem, o, b, periods, id, per, i);
      return false;
    }
    var k := FindHole(problem, assignments, o, b.placements[i], periods);
    if k == |periods| {
      NoneOpens(problem, o, b, periods, id, per, i);
      return false;
    }
    KeptParts(problem, b);
    ReseatKeeps(problem, o, b, i, periods[k]);
    RepairedImproves(problem, b, id, per, i, periods[k]);
    Exchange(problem, state, assignments, id, per, i, periods[k]);
    repaired := true;
  }

  /** Looks for an exchange that lets assignment `id` have one more lesson. */
  method RepairFor(problem: Problem, state: State<Id>, assignments: map<Id, Assignment>, id: Id, periods: seq<Id>) returns (repaired: bool)
    requires WellFormed(problem) && Preflight.Feasible(problem) && assignments == Schedule(problem) && InOrder(problem, state)
    requires (forall hole | hole in periods :: UsableId(problem, hole)) && id in assignments && Wants(state.books, id, false)
    modifies state`books, state`occupancy
    ensures InOrder(problem, state)
    ensures repaired ==> Improves(problem, old(state.books), state.books)
    ensures !repaired ==> state.books == old(state.books) && state.occupancy == old(state.occupancy)
    ensures !repaired ==> NoExchangeFor(problem, assignments, state.occupancy, state.books, periods, id)
  {
    hide *;
    var o, b := state.occupancy, state.books;
    repaired := false;
    if assignments[id].resource != NO_ID {
      NeedsResource(problem, assignments, o, b, periods, id);
      return;
    }
    for k := 0 to |periods|
      invariant state.books == b && state.occupancy == o
      invariant forall j | 0 <= j < k :: NoExchangeAt(problem, assignments, o, b, periods, id, periods[j])
    {
      repaired := RepairAt(problem, state, assignments, id, periods[k], periods);
      if repaired {
        return;
      }
    }
    NowhereExchanged(problem, assignments, o, b, periods, id);
  }

  lemma NeedsResource(problem: Problem, assignments: map<Id, Assignment>, o: Occupancy, b: Books<Id>, periods: seq<Id>, id: Id)
    requires id in assignments && assignments[id].resource != NO_ID
    ensures NoExchangeFor(problem, assignments, o, b, periods, id)
  {
  }

  lemma NowhereExchanged(problem: Problem, assignments: map<Id, Assignment>, o: Occupancy, b: Books<Id>, periods: seq<Id>, id: Id)
    requires forall j | 0 <= j < |periods| :: NoExchangeAt(problem, assignments, o, b, periods, id, periods[j])
    ensures NoExchangeFor(problem, assignments, o, b, periods, id)
  {
    hide NoExchangeAt;
  }

  /** The assignments with single lessons left, sorted. */
  method SinglesLeft(b: Books<Id>) returns (ids: seq<Id>)
    ensures forall id :: id in ids <==> id in b.remaining && Wants(b, id, false)
  {
    var keys := KeysInSomeOrder(b.remaining);
    ids := [];
    for k := 0 to |keys|
      invariant forall id :: id in ids <==> id in keys[..k] && Wants(b, id, false)
    {
      if Wants(b, keys[k], false) {
        ids := ids + [keys[k]];
      }
    }
    var found := ids;
    ids := SortIds(ids);
    SameElements(found, ids);
  }

  /** One exchange, if there is one: without the budget running out, the attempt ends only when there is none. */
  method RepairSingles(problem: Problem, state: State<Id>, assignments: map<Id, Assignment>, periods: seq<Id>) returns (repaired: bool)
    requires WellFormed(problem) && Preflight.Feasible(problem) && assignments == Schedule(problem) && InOrder(problem, state)
    requires forall hole | hole in periods :: UsableId(problem, hole)
    modifies state`books, state`occupancy
    ensures InOrder(problem, state)
    ensures repaired ==> Improves(problem, old(state.books), state.books)
    ensures !repaired ==> state.books == old(state.books) && state.occupancy == old(state.occupancy)
    ensures !repaired ==> forall id :: NoExchangeFor(problem, assignments, state.occupancy, state.books, periods, id)
    ensures old(Finished(state.books)) ==> !repaired
  {
    hide *;
    var o, b := state.occupancy, state.books;
    repaired := false;
    var ids := SinglesLeft(b);
    LeftFacts(problem, state);
    for k := 0 to |ids|
      invariant state.books == b && state.occupancy == o
      invariant forall j | 0 <= j < k :: NoExchangeFor(problem, assignments, o, b, periods, ids[j])
    {
      assert ids[k] in ids;
      repaired := RepairFor(problem, state, assignments, ids[k], periods);
      if repaired {
        return;
      }
    }
    NobodyExchanged(problem, assignments, o, b, periods, ids);
  }

  lemma LeftFacts(problem: Problem, state: State<Id>)
    requires InOrder(problem, state)
    ensures state.books.remaining.Keys == Schedule(problem).Keys
    ensures Finished(state.books) ==> forall id | id in state.books.remaining :: !Wants(state.books, id, false)
  {
    hide Compatible, Schedule;
  }

  lemma NobodyExchanged(problem: Problem, assignments: map<Id, Assignment>, o: Occupancy, b: Books<Id>, periods: seq<Id>, ids: seq<Id>)
    requires b.remaining.Keys == assignments.Keys && forall id :: id in ids <==> id in b.remaining && Wants(b, id, false)
    requires forall j | 0 <= j < |ids| :: NoExchangeFor(problem, assignments, o, b, periods, ids[j])
    ensures forall id :: NoExchangeFor(problem, assignments, o, b, periods, id)
  {
    hide Wants, Movable, Blocks;
    forall id
      ensures NoExchangeFor(problem, assignments, o, b, periods, id)
    {
      if id in ids {
        var j :| 0 <= j < |ids| && ids[j] == id;
      }
    }
  }
}

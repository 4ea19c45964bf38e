/** `solveAttempt` for timetables without audiences. */
module Engine {
  import opened Model
  import opened Lessons
  import opened Ledger
  import opened AttemptState
  import opened EdgeColoring
  import opened Adjacency
  import Preflight
  import Agreement
  import Matching
  import TeacherMatching

  /** `timeless` stands for the runs whose deadline does not pass. */
  datatype Config = Config(iterationBudget: int, restarts: int, incremental: bool, timeless: bool)

  /** The clock: any answer is possible, unless the run is timeless. */
  method DeadlinePassed(config: Config) returns (late: bool)
    ensures config.timeless ==> !late
  {
    late := *;
    if config.timeless {
      late := false;
    }
  }

  /** Spends iterations; the attempt stops when its budget or its time is used up. */
  method BudgetExceeded<K(==)>(state: State<K>, spent: nat, config: Config) returns (stop: bool)
    modifies state`iterations, state`timedOut
    ensures state.iterations == old(state.iterations) + spent
    ensures state.timedOut == (old(state.timedOut) || stop)
    ensures state.iterations >= config.iterationBudget ==> stop
    ensures config.timeless && state.iterations < config.iterationBudget ==> !stop
  {
    state.iterations := state.iterations + spent;
    var late := DeadlinePassed(config);
    stop := state.iterations >= config.iterationBudget || late;
    if stop {
      state.timedOut := true;
    }
  }

  /** No more than `most` iterations were spent, and nothing but a used-up budget stops a timeless run. */
  ghost predicate Used(before: int, after: int, most: int, config: Config, stop: bool) {
    before <= after <= before + most && (stop && config.timeless ==> after >= config.iterationBudget)
  }

  lemma NowUsed(before: int, after: int, most: int, config: Config, stop: bool)
    requires before <= after <= before + most && (stop && config.timeless ==> after >= config.iterationBudget)
    ensures Used(before, after, most, config, stop)
  {
  }

  lemma UsedMore(a: int, b: int, c: int, first: int, second: int, total: int, config: Config, stop: bool)
    requires Used(a, b, first, config, false) && Used(b, c, second, config, stop) && first + second <= total
    ensures Used(a, c, total, config, stop)
  {
  }

  lemma UsedAll(a: int, b: int, first: int, total: int, config: Config, stop: bool)
    requires Used(a, b, first, config, stop) && first <= total
    ensures Used(a, b, total, config, stop)
  {
  }

  lemma UsedMeans(before: int, after: int, most: int, config: Config, stop: bool)
    requires Used(before, after, most, config, stop)
    ensures before <= after <= before + most && (stop && config.timeless ==> after >= config.iterationBudget)
  {
  }

  /** What every step of an attempt keeps: the occupancy maps mirror the lessons, the lessons are legal and
      compatible, and placed plus remaining periods is what was asked for. */
  ghost predicate InOrder(problem: Problem, state: State<Id>)
    reads state`books, state`occupancy
  {
    Mirrors(state.occupancy, state.books.placements) && Kept(problem, state.books)
  }

  predicate FreeCell(problem: Problem, o: Occupancy, a: Assignment, per: Id) {
    && OpenCell(problem, a, per)
    && (a.teacher, per) !in o.teachers && (a.cohort, per) !in o.cohorts
    && (a.resource != NO_ID ==> o.resources[(a.resource, per)] < Capacity(problem, a.resource))
  }

  /** `canPlace`: everybody and everything the lesson needs is there and free in each of the periods. */
  predicate CanPlace(problem: Problem, o: Occupancy, a: Assignment, periods: seq<Id>) {
    LocalTeacher(problem, a.teacher) && LocalCohort(problem, a.cohort) && forall per | per in periods :: FreeCell(problem, o, a, per)
  }

  lemma ShapeIsDistinct(problem: Problem, periods: seq<Id>, double: bool)
    requires WellShaped(problem, periods, double)
    ensures Distinct(periods) && periods != []
  {
  }

  /** The lesson can be entered: `a` is scheduled, the periods fit, are free, and are still owed. */
  ghost predicate Placeable(problem: Problem, o: Occupancy, b: Books<Id>, a: Assignment, periods: seq<Id>, double: bool) {
    && a.id in Schedule(problem) && Schedule(problem)[a.id] == a
    && WellShaped(problem, periods, double) && CanPlace(problem, o, a, periods)
    && |periods| <= Left(b.remaining, a.id) && (double ==> Left(b.doubles, a.id) > 0)
  }

  lemma PlaceableIsFree(problem: Problem, o: Occupancy, b: Books<Id>, a: Assignment, periods: seq<Id>, double: bool)
    requires Mirrors(o, b.placements) && Placeable(problem, o, b, a, periods, double)
    ensures LegalLesson(problem, Schedule(problem), LessonOf(problem, a, periods, double))
    ensures Free(b.placements, LessonOf(problem, a, periods, double))
    ensures ResourceLeft(problem, b.placements, LessonOf(problem, a, periods, double))
  {
    hide Schedule, Bookings, Booked, Capacity, OpenCell, WellShaped;
    forall per | per in periods
      ensures FreeCell(problem, o, a, per)
    {
    }
  }

  lemma PlaceableKeeps(problem: Problem, o: Occupancy, b: Books<Id>, a: Assignment, periods: seq<Id>, double: bool)
    requires WellFormed(problem) && Mirrors(o, b.placements) && Kept(problem, b) && Placeable(problem, o, b, a, periods, double)
    ensures Kept(problem, Enter(b, LessonOf(problem, a, periods, double), a.id))
  {
    hide LegalLesson, Free, ResourceLeft, WellFormed, Schedule, CanPlace, Compatible;
    PlaceableIsFree(problem, o, b, a, periods, double);
    ShapeIsDistinct(problem, periods, double);
    PlaceKeeps(problem, b, a, periods, double);
  }

  /** `place`: enters a lesson that `CanPlace` has approved. */
  method Place(problem: Problem, state: State<Id>, a: Assignment, periods: seq<Id>, double: bool)
    requires WellFormed(problem) && InOrder(problem, state) && Placeable(problem, state.occupancy, state.books, a, periods, double)
    modifies state`books, state`occupancy
    ensures InOrder(problem, state)
    ensures state.books == Enter(old(state.books), LessonOf(problem, a, periods, double), a.id)
    ensures state.occupancy == Occupied(old(state.occupancy), LessonOf(problem, a, periods, double))
  {
    PlaceableKeeps(problem, state.occupancy, state.books, a, periods, double);
    hide *;
    state.Record(LessonOf(problem, a, periods, double), a.id);
  }

  /** What is left to place has not grown. */
  ghost predicate Shrinks(before: Books<Id>, after: Books<Id>) {
    && after.remaining.Keys == before.remaining.Keys && after.doubles.Keys == before.doubles.Keys
    && (forall id | id in before.remaining :: after.remaining[id] <= before.remaining[id])
    && forall id | id in before.doubles :: after.doubles[id] <= before.doubles[id]
  }

  /** Nothing is left to place. */
  ghost predicate Finished(b: Books<Id>) {
    (forall id | id in b.remaining :: b.remaining[id] == 0) && forall id | id in b.doubles :: b.doubles[id] == 0
  }

  lemma ShrinksFurther(a: Books<Id>, b: Books<Id>, c: Books<Id>)
    requires Shrinks(a, b) && Shrinks(b, c)
    ensures Shrinks(a, c)
  {
  }

  lemma ShrinksNot(b: Books<Id>)
    ensures Shrinks(b, b)
  {
  }

  lemma EnterShrinks(b: Books<Id>, p: Placement, key: Id)
    requires key in b.remaining && key in b.doubles
    ensures Shrinks(b, Enter(b, p, key))
  {
  }

  // ----- the start of an attempt

  function WeeklyTotal(list: seq<Assignment>): int {
    if list == [] then 0 else WeeklyTotal(list[..|list| - 1]) + list[|list| - 1].weekly
  }

  /** The weekly periods that are to be scheduled. */
  function Demanded(problem: Problem): int {
    WeeklyTotal(OnlySchedulable(problem, problem.assignments))
  }

  function InitialBooks(assignments: map<Id, Assignment>): Books<Id> {
    Books([], map id | id in assignments :: assignments[id].weekly, map id | id in assignments :: assignments[id].doubles)
  }

  lemma InitialKept(problem: Problem)
    requires WellFormed(problem) && Preflight.Feasible(problem)
    ensures Kept(problem, InitialBooks(Schedule(problem))) && Reserved(InitialBooks(Schedule(problem)))
  {
    ScheduleEntries(problem);
    forall id | id in Schedule(problem)
      ensures Schedule(problem)[id].doubles * 2 <= Schedule(problem)[id].weekly
    {
      Agreement.FeasibleAssignment(problem, Schedule(problem)[id]);
    }
  }

  method StartAttempt(problem: Problem) returns (state: State<Id>, assignments: map<Id, Assignment>)
    requires WellFormed(problem) && Preflight.Feasible(problem)
    ensures fresh(state) && assignments == Schedule(problem) && state.books == InitialBooks(assignments)
    ensures InOrder(problem, state) && Reserved(state.books) && state.iterations == 0 && !state.timedOut
  {
    InitialKept(problem);
    hide Kept, Preflight.Feasible, WellFormed, Reserved, Mirrors;
    state := new State<Id>();
    assignments := map[];
    var list := problem.assignments;
    for k := 0 to |list|
      invariant fresh(state) && state.iterations == 0 && !state.timedOut && Mirrors(state.occupancy, [])
      invariant assignments == AssignmentById(OnlySchedulable(problem, list[..k])) && state.books == InitialBooks(assignments)
    {
      var a := list[k];
      InitialStep(problem, list, k, assignments);
      if Schedulable(problem, a) {
        assignments := assignments[a.id := a];
        state.books := Books([], state.books.remaining[a.id := a.weekly], state.books.doubles[a.id := a.doubles]);
      }
    }
    assert list[..|list|] == list;
  }

  lemma InitialStep(problem: Problem, list: seq<Assignment>, k: nat, assignments: map<Id, Assignment>)
    requires k < |list| && assignments == AssignmentById(OnlySchedulable(problem, list[..k]))
    ensures AssignmentById(OnlySchedulable(problem, list[..k + 1]))
         == if Schedulable(problem, list[k]) then assignments[list[k].id := list[k]] else assignments
    ensures var a := list[k]; var b := InitialBooks(assignments);
            InitialBooks(assignments[a.id := a]) == Books([], b.remaining[a.id := a.weekly], b.doubles[a.id := a.doubles])
  {
    var a := list[k];
    var only := OnlySchedulable(problem, list[..k]);
    assert list[..k + 1][..k] == list[..k];
    assert (only + [a])[..|only|] == only;
    var b, after := InitialBooks(assignments), InitialBooks(assignments[a.id := a]);
    assert after.remaining == b.remaining[a.id := a.weekly];
    assert after.doubles == b.doubles[a.id := a.doubles];
  }

  /** Existing sessions, retained by an incremental run, have the shape of lessons. */
  ghost predicate ExistingShaped(problem: Problem) {
    forall e | e in problem.existing :: WellShaped(problem, e.periods, e.double)
  }

  /** The existing session can be pinned. */
  predicate Pinnable(problem: Problem, assignments: map<Id, Assignment>, o: Occupancy, b: Books<Id>, e: Placement) {
    && e.assignment in assignments && e.periods != [] && Left(b.remaining, e.assignment) >= |e.periods|
    && !(e.double && Left(b.doubles, e.assignment) == 0) && CanPlace(problem, o, assignments[e.assignment], e.periods)
  }

  ghost predicate Pinned(problem: Problem, assignments: map<Id, Assignment>, ps: seq<Placement>, e: Placement) {
    e.assignment in assignments && LessonOf(problem, assignments[e.assignment], e.periods, e.double) in ps
  }

  lemma FreeBefore(problem: Problem, o: Occupancy, a: Assignment, p: Placement, per: Id)
    requires FreeCell(problem, Occupied(o, p), a, per)
    ensures FreeCell(problem, o, a, per)
  {
    hide OpenCell, Capacity, Pairs, Keys;
  }

  /** What does not fit now does not fit after another lesson. */
  lemma StillUnpinnable(problem: Problem, assignments: map<Id, Assignment>, o: Occupancy, b: Books<Id>, e: Placement, p: Placement, key: Id)
    requires !Pinnable(problem, assignments, o, b, e) && (p.double ==> Left(b.doubles, key) > 0)
    ensures !Pinnable(problem, assignments, Occupied(o, p), Enter(b, p, key), e)
  {
    hide FreeCell, Occupied, LocalTeacher, LocalCohort;
    if e.assignment in assignments && CanPlace(problem, Occupied(o, p), assignments[e.assignment], e.periods) {
      forall per | per in e.periods
        ensures FreeCell(problem, o, assignments[e.assignment], per)
      {
        FreeBefore(problem, o, assignments[e.assignment], p, per);
      }
    }
  }

  /** Every session seen so far is pinned, or does not fit. */
  ghost predicate Dealt(problem: Problem, assignments: map<Id, Assignment>, o: Occupancy, b: Books<Id>, seen: seq<Placement>) {
    && (forall e | e in seen :: Pinned(problem, assignments, b.placements, e) || !Pinnable(problem, assignments, o, b, e))
    && forall p | p in b.placements :: exists e | e in seen :: Pinned(problem, assignments, [p], e)
  }

  lemma DealtNext(problem: Problem, assignments: map<Id, Assignment>, o: Occupancy, b: Books<Id>, seen: seq<Placement>, e: Placement)
    requires Dealt(problem, assignments, o, b, seen)
    ensures !Pinnable(problem, assignments, o, b, e) ==> Dealt(problem, assignments, o, b, seen + [e])
    ensures Pinnable(problem, assignments, o, b, e) ==>
              var p := LessonOf(problem, assignments[e.assignment], e.periods, e.double);
              (e.double ==> Left(b.doubles, e.assignment) > 0) ==>
                Dealt(problem, assignments, Occupied(o, p), Enter(b, p, e.assignment), seen + [e])
  {
    hide Pinnable, Occupied, LessonOf;
    assert forall f :: f in seen + [e] <==> f in seen || f == e;
    if Pinnable(problem, assignments, o, b, e) {
      DealtPinned(problem, assignments, o, b, seen, e);
    }
  }

  lemma DealtPinned(problem: Problem, assignments: map<Id, Assignment>, o: Occupancy, b: Books<Id>, seen: seq<Placement>, e: Placement)
    requires Dealt(problem, assignments, o, b, seen) && Pinnable(problem, assignments, o, b, e)
    ensures var p := LessonOf(problem, assignments[e.assignment], e.periods, e.double);
            (e.double ==> Left(b.doubles, e.assignment) > 0) ==>
              Dealt(problem, assignments, Occupied(o, p), Enter(b, p, e.assignment), seen + [e])
  {
    var p := LessonOf(problem, assignments[e.assignment], e.periods, e.double);
    var after := Enter(b, p, e.assignment);
    assert p.double == e.double && after.placements == b.placements + [p] && Pinned(problem, assignments, [p], e);
    hide Pinnable, Occupied, LessonOf, Enter;
    if e.double ==> Left(b.doubles, e.assignment) > 0 {
      forall f | f in seen + [e]
        ensures Pinned(problem, assignments, after.placements, f) || !Pinnable(problem, assignments, Occupied(o, p), after, f)
      {
        if f in seen && !Pinned(problem, assignments, b.placements, f) {
          StillUnpinnable(problem, assignments, o, b, f, p, e.assignment);
        }
      }
      forall q | q in after.placements
        ensures exists f | f in seen + [e] :: Pinned(problem, assignments, [q], f)
      {
        if q in b.placements {
          var f :| f in seen && Pinned(problem, assignments, [q], f);
          assert f in seen + [e];
        } else {
          assert q == p && e in seen + [e];
        }
      }
    }
  }

  /** Pins the existing sessions that still fit: afterwards each of them is pinned or does not fit, and nothing else is placed. */
  method PinExisting(problem: Problem, state: State<Id>, assignments: map<Id, Assignment>)
    requires WellFormed(problem) && ExistingShaped(problem) && assignments == Schedule(problem) && InOrder(problem, state)
    requires state.books.placements == []
    modifies state`books, state`occupancy
    ensures InOrder(problem, state) && Dealt(problem, assignments, state.occupancy, state.books, problem.existing)
  {
    ScheduleEntries(problem);
    hide WellFormed, Mirrors, Schedule, CanPlace, WellShaped, Compatible, Dealt, LessonOf, Occupied, Enter;
    NothingDealt(problem, assignments, state.occupancy, state.books);
    assert problem.existing[..0] == [];
    for k := 0 to |problem.existing|
      invariant InOrder(problem, state) && Dealt(problem, assignments, state.occupancy, state.books, problem.existing[..k])
    {
      var e := problem.existing[k];
      assert problem.existing[..k + 1] == problem.existing[..k] + [e];
      DealtNext(problem, assignments, state.occupancy, state.books, problem.existing[..k], e);
      DoublesNatural(problem, state.books);
      if e.assignment in assignments && e.periods != [] && Left(state.books.remaining, e.assignment) >= |e.periods|
         && !(e.double && Left(state.books.doubles, e.assignment) == 0) {
        var a := assignments[e.assignment];
        if CanPlace(problem, state.occupancy, a, e.periods) {
          Place(problem, state, a, e.periods, e.double);
        }
      }
    }
    assert problem.existing[..|problem.existing|] == problem.existing;
  }

  lemma NothingDealt(problem: Problem, assignments: map<Id, Assignment>, o: Occupancy, b: Books<Id>)
    requires b.placements == []
    ensures Dealt(problem, assignments, o, b, [])
  {
  }

  lemma DoublesNatural(problem: Problem, b: Books<Id>)
    requires Kept(problem, b)
    ensures forall id: Id :: Left(b.doubles, id) >= 0
  {
    hide Compatible, Schedule, Credit, DoubleCount;
  }

  // ----- cells: the periods, or adjacent pairs of periods, that colours are mapped to

  predicate UsableId(problem: Problem, per: Id) {
    var periods := PeriodById(problem.periods);
    per in periods && Usable(periods[per])
  }

  /** A cell is one usable period, or two adjoining ones. */
  predicate IsCell(problem: Problem, cell: seq<Id>, size: nat) {
    && |cell| == size && (forall per | per in cell :: UsableId(problem, per))
    && WellShaped(problem, cell, size == 2)
  }

  /** Cells of the given size that share no period. */
  ghost predicate Cellular(problem: Problem, cells: seq<seq<Id>>, size: nat) {
    && (forall c | c in cells :: IsCell(problem, c, size))
    && Distinct(cells)
    && forall c, d, per | c in cells && d in cells && c != d && per in c :: per !in d
  }

  lemma ShuffledCells(problem: Problem, cells: seq<seq<Id>>, shuffled: seq<seq<Id>>, size: nat)
    requires Cellular(problem, cells, size) && multiset(cells) == multiset(shuffled)
    ensures Cellular(problem, shuffled, size) && |shuffled| == |cells|
  {
    SameElements(cells, shuffled);
    DistinctPermutation(cells, shuffled);
    assert |multiset(cells)| == |cells| && |multiset(shuffled)| == |shuffled|;
  }

  /** In the order of the week, the usable periods have different identifiers and are found by them. */
  lemma UsableFacts(problem: Problem)
    requires WellFormed(problem)
    ensures var periods := UsablePeriods(problem);
            && (forall i | 0 <= i < |periods| :: UsableId(problem, periods[i].id) && PeriodById(problem.periods)[periods[i].id] == periods[i])
            && (forall i, j | 0 <= i < j < |periods| :: periods[i].id != periods[j].id)
  {
    var periods := UsablePeriods(problem);
    UsablePeriodsElements(problem);
    PeriodByIdEntries(problem.periods);
    assert Distinct(problem.periods);
    forall i | 0 <= i < |periods|
      ensures UsableId(problem, periods[i].id) && PeriodById(problem.periods)[periods[i].id] == periods[i]
    {
      assert periods[i] in problem.periods;
    }
    forall i, j | 0 <= i < j < |periods|
      ensures periods[i].id != periods[j].id
    {
      assert periods[i] in problem.periods && periods[j] in problem.periods && periods[i] != periods[j];
    }
  }

  /** One cell for each usable period. */
  method SingleCells(problem: Problem, periods: seq<Period>) returns (cells: seq<seq<Id>>)
    requires WellFormed(problem) && periods == UsablePeriods(problem)
    ensures Cellular(problem, cells, 1) && |cells| == |periods|
    ensures forall per: Id | UsableId(problem, per) :: [per] in cells
  {
    cells := [];
    UsableFacts(problem);
    hide UsablePeriods, UsableId, PeriodById;
    for k := 0 to |periods|
      invariant |cells| == k && forall j | 0 <= j < k :: cells[j] == [periods[j].id]
    {
      cells := cells + [[periods[k].id]];
    }
    SinglesAreCells(problem, periods, cells);
    forall per: Id | UsableId(problem, per)
      ensures [per] in cells
    {
      UsableIsListed(problem, per);
      var j :| 0 <= j < |periods| && periods[j].id == per;
      assert cells[j] == [per];
    }
  }

  lemma UsableIsListed(problem: Problem, per: Id)
    requires UsableId(problem, per)
    ensures exists j :: 0 <= j < |UsablePeriods(problem)| && UsablePeriods(problem)[j].id == per
  {
    PeriodByIdEntries(problem.periods);
    UsablePeriodsElements(problem);
    var p := PeriodById(problem.periods)[per];
    assert p in UsablePeriods(problem);
  }

  lemma SinglesAreCells(problem: Problem, periods: seq<Period>, cells: seq<seq<Id>>)
    requires |cells| == |periods| && forall j | 0 <= j < |cells| :: cells[j] == [periods[j].id]
    requires forall i | 0 <= i < |periods| :: UsableId(problem, periods[i].id)
    requires forall i, j | 0 <= i < j < |periods| :: periods[i].id != periods[j].id
    ensures Cellular(problem, cells, 1)
  {
    hide UsableId;
    forall c | c in cells
      ensures IsCell(problem, c, 1)
    {
      var j :| 0 <= j < |cells| && cells[j] == c;
    }
    forall i, j | 0 <= i < j < |cells|
      ensures cells[i] != cells[j]
    {
      assert cells[i][0] != cells[j][0];
    }
    forall c, d, per | c in cells && d in cells && c != d && per in c
      ensures per !in d
    {
      var i :| 0 <= i < |cells| && cells[i] == c;
      var j :| 0 <= j < |cells| && cells[j] == d;
    }
  }

  /** One cell for each pair of the greedy scan. */
  method PairCells(problem: Problem, periods: seq<Period>) returns (cells: seq<seq<Id>>)
    requires WellFormed(problem) && periods == UsablePeriods(problem)
    ensures Cellular(problem, cells, 2) && |cells| == |Greedy(periods, 0, {})|
  {
    var starts := AdjacentPairs(periods);
    cells := [];
    UsableFacts(problem);
    GreedySpaced(periods, 0, {});
    hide UsablePeriods, UsableId, Greedy;
    for k := 0 to |starts|
      invariant |cells| == k && forall j | 0 <= j < k :: cells[j] == [periods[starts[j]].id, periods[starts[j] + 1].id]
    {
      cells := cells + [[periods[starts[k]].id, periods[starts[k] + 1].id]];
    }
    PairsAreCells(problem, periods, starts, cells);
  }

  lemma PairsAreCells(problem: Problem, periods: seq<Period>, starts: seq<nat>, cells: seq<seq<Id>>)
    requires Spaced(periods, {}, starts, 0) && |cells| == |starts|
    requires forall i | 0 <= i < |periods| :: UsableId(problem, periods[i].id) && PeriodById(problem.periods)[periods[i].id] == periods[i]
    requires forall i, j | 0 <= i < j < |periods| :: periods[i].id != periods[j].id
    requires forall j | 0 <= j < |starts| :: cells[j] == [periods[starts[j]].id, periods[starts[j] + 1].id]
    ensures Cellular(problem, cells, 2)
  {
    forall c | c in cells
      ensures IsCell(problem, c, 2)
    {
      var j :| 0 <= j < |cells| && cells[j] == c;
      assert Pairable(periods, starts[j], {});
    }
    forall i, j | 0 <= i < |cells| && 0 <= j < |cells| && i != j
      ensures cells[i] != cells[j] && forall per | per in cells[i] :: per !in cells[j]
    {
      assert Pairable(periods, starts[i], {}) && Pairable(periods, starts[j], {});
      assert starts[i] + 2 <= starts[j] || starts[j] + 2 <= starts[i];
    }
    forall c, d, per | c in cells && d in cells && c != d && per in c
      ensures per !in d
    {
      var i :| 0 <= i < |cells| && cells[i] == c;
      var j :| 0 <= j < |cells| && cells[j] == d;
    }
  }
}

/** A whole ordinary attempt, and when it is bound to succeed. */
module Attempt {
  import opened Model
  import opened Lessons
  import opened Ledger
  import opened AttemptState
  import opened EdgeColoring
  import opened Adjacency
  import opened Engine
  import opened ColorLessons
  import opened Filling
  import Repair
  import Preflight
  import Agreement
  import Validator

  // ----- enough periods for the colours

  /** Whose demand corresponds to the load of a vertex. */
  function Of(side: Side, key: Id): Preflight.Target {
    if side.TeacherSide? then Preflight.OfTeacher(key) else Preflight.OfCohort(key)
  }

  lemma LoadAppend(only: seq<Assignment>, a: Assignment, side: Side, key: Id, mode: Mode)
    ensures Load(only + [a], side, key, mode) == Load(only, side, key, mode) + if End(side, a) == key then Units(a, mode) else 0
  {
    assert (only + [a])[..|only|] == only;
  }

  /** What the preflight counts as an entity's demand is what the colouring counts as its load. */
  lemma {:induction false} LoadIsDemand(problem: Problem, list: seq<Assignment>, side: Side, key: Id, mode: Mode)
    requires !mode.PairedDemand? && forall a | a in list && Schedulable(problem, a) :: Preflight.Bookable(problem, a)
    requires mode.Singles? ==> forall a | a in list && Schedulable(problem, a) :: a.doubles == 0
    ensures Load(OnlySchedulable(problem, list), side, key, mode)
         == Preflight.Demand(problem, list, Of(side, key), if mode.Singles? then Preflight.WeeklyPeriods else Preflight.DoubleBlocks)
  {
    if list != [] {
      var rest, last := list[..|list| - 1], list[|list| - 1];
      assert list == rest + [last];
      LoadIsDemand(problem, rest, side, key, mode);
      assert last in list && (Preflight.Bookable(problem, last) ==> Schedulable(problem, last));
      hide Schedulable, Preflight.Bookable, Load;
      LoadAppend(OnlySchedulable(problem, rest), last, side, key, mode);
    }
  }

  lemma {:induction false} GreedyUnblocked(periods: seq<Period>, i: nat, unavailable: set<Id>)
    requires forall p | p in periods :: p.id !in unavailable
    ensures Greedy(periods, i, unavailable) == Greedy(periods, i, {})
    decreases |periods| - i
  {
    if i + 1 < |periods| {
      assert periods[i] in periods && periods[i + 1] in periods;
      GreedyUnblocked(periods, i + 1, unavailable);
      if i + 2 <= |periods| {
        GreedyUnblocked(periods, i + 2, unavailable);
      }
    }
  }

  /** A silent preflight bounds the demand for single lessons by the number of periods. */
  lemma DemandFits(problem: Problem, side: Side, key: Id)
    requires Preflight.Feasible(problem)
    ensures Preflight.Demand(problem, problem.assignments, Of(side, key), Preflight.WeeklyPeriods) <= |UsablePeriods(problem)|
  {
    var target, code := Of(side, key), if side.TeacherSide? then Preflight.TeacherCapacity else Preflight.CohortCapacity;
    if Preflight.Demanded(problem, problem.assignments, target) {
      var a :| a in problem.assignments && Preflight.Bookable(problem, a) && Preflight.Hits(target, a);
      assert !Preflight.Raises(problem, Preflight.Issue(code, key));
      if side.TeacherSide? {
        AvailableAtMostAll(UsablePeriods(problem), problem.teachers[key].unavailable);
      } else {
        AvailableAtMostAll(UsablePeriods(problem), problem.cohorts[key].unavailable);
      }
    } else {
      Preflight.NotDemanded(problem, problem.assignments, target, Preflight.WeeklyPeriods);
    }
  }

  function Unavailable(problem: Problem, side: Side, key: Id): set<Id> {
    if side.TeacherSide? && key in problem.teachers then problem.teachers[key].unavailable
    else if side.CohortSide? && key in problem.cohorts then problem.cohorts[key].unavailable
    else {}
  }

  lemma PairsFit(problem: Problem, side: Side, key: Id)
    requires Preflight.Feasible(problem) && Preflight.Demanded(problem, problem.assignments, Of(side, key))
    ensures Preflight.Demand(problem, problem.assignments, Of(side, key), Preflight.DoubleBlocks)
         <= |Greedy(UsablePeriods(problem), 0, Unavailable(problem, side, key))|
  {
    var code := if side.TeacherSide? then Preflight.TeacherAdjacency else Preflight.CohortAdjacency;
    hide Preflight.Demand, Greedy, UsablePeriods;
    var a :| a in problem.assignments && Preflight.Bookable(problem, a) && Preflight.Hits(Of(side, key), a);
    assert !Preflight.Raises(problem, Preflight.Issue(code, key));
  }

  lemma NobodyBlocked(problem: Problem, side: Side, key: Id)
    requires WellFormed(problem) && Unrestricted(problem) && Preflight.Demanded(problem, problem.assignments, Of(side, key))
    ensures forall p | p in UsablePeriods(problem) :: p.id !in Unavailable(problem, side, key)
  {
    UsableFacts(problem);
    hide UsablePeriods, UsableId;
    var a :| a in problem.assignments && Preflight.Bookable(problem, a) && Preflight.Hits(Of(side, key), a);
    assert Unhindered(problem, a);
    forall p | p in UsablePeriods(problem)
      ensures p.id !in Unavailable(problem, side, key)
    {
      var i :| 0 <= i < |UsablePeriods(problem)| && UsablePeriods(problem)[i] == p;
      assert UsableId(problem, p.id);
    }
  }

  /** The same for double lessons and adjacent pairs, where nobody is unavailable. */
  lemma DoublesFit(problem: Problem, side: Side, key: Id)
    requires WellFormed(problem) && Preflight.Feasible(problem) && Unrestricted(problem)
    ensures Preflight.Demand(problem, problem.assignments, Of(side, key), Preflight.DoubleBlocks) <= |Greedy(UsablePeriods(problem), 0, {})|
  {
    hide *;
    if Preflight.Demanded(problem, problem.assignments, Of(side, key)) {
      PairsFit(problem, side, key);
      NobodyBlocked(problem, side, key);
      GreedyUnblocked(UsablePeriods(problem), 0, Unavailable(problem, side, key));
    } else {
      Preflight.NotDemanded(problem, problem.assignments, Of(side, key), Preflight.DoubleBlocks);
    }
  }

  /** What `canUsePairedDemandColoring` and `canUseExactColoring` ask of all assignments. */
  predicate Suits(mode: Mode, assignments: map<Id, Assignment>) {
    && (forall id | id in assignments :: Fits(mode, assignments[id]))
    && (mode.PairedDemand? ==>
          && (exists id | id in assignments :: assignments[id].doubles > 0)
          && (exists id | id in assignments :: assignments[id].weekly > assignments[id].doubles * 2))
  }

  /** The cells that a mode has. */
  function CellCount(problem: Problem, mode: Mode): nat {
    if mode.Singles? then |UsablePeriods(problem)| else |Greedy(UsablePeriods(problem), 0, {})|
  }

  /** A silent preflight is enough for single lessons only, and for double lessons only. */
  lemma FeasibleIsEnough(problem: Problem, mode: Mode)
    requires WellFormed(problem) && Preflight.Feasible(problem) && Unrestricted(problem) && Suits(mode, Schedule(problem)) && !mode.PairedDemand?
    ensures Enough(problem, mode, CellCount(problem, mode))
  {
    hide Preflight.Feasible, Schedule, WellFormed, Unrestricted, UsablePeriods, Greedy;
    ScheduleEntries(problem);
    forall a | a in problem.assignments && Schedulable(problem, a)
      ensures Preflight.Bookable(problem, a)
    {
      Agreement.FeasibleAssignment(problem, a);
    }
    forall side: Side, key: Id
      ensures Load(OnlySchedulable(problem, problem.assignments), side, key, mode) <= CellCount(problem, mode)
    {
      LoadIsDemand(problem, problem.assignments, side, key, mode);
      if mode.Singles? {
        DemandFits(problem, side, key);
      } else {
        DoublesFit(problem, side, key);
      }
    }
  }

  // ----- the phases

  /** The colouring of `mode` is bound to succeed. */
  ghost predicate Assured(problem: Problem, mode: Mode) {
    Unrestricted(problem) && Suits(mode, Schedule(problem)) && Enough(problem, mode, CellCount(problem, mode))
  }

  ghost predicate Idle(problem: Problem) {
    Schedule(problem) == map[]
  }

  lemma EmptyLoad(problem: Problem, mode: Mode)
    requires WellFormed(problem) && Idle(problem)
    ensures Enough(problem, mode, 0)
  {
    ScheduleEntries(problem);
    OnlySchedulableElements(problem, problem.assignments);
    var only := OnlySchedulable(problem, problem.assignments);
    hide Schedule, OnlySchedulable;
    SomeElement(only);
  }

  lemma EmptyBooks(problem: Problem, state: State<Id>)
    requires InOrder(problem, state) && Idle(problem)
    ensures Finished(state.books) && state.books == Books([], map[], map[])
  {
    var ps := state.books.placements;
    hide Schedule, Bookings, AtMostOnce, Capacity, OpenCell, WellShaped, Mirrors;
    assert forall p | p in ps :: p.assignment in Schedule(problem);
    SomeElement(ps);
  }

  /** The three guards exclude each other, unless there is nothing to do. */
  lemma OneGuard(problem: Problem, mode: Mode, other: Mode)
    requires WellFormed(problem) && Suits(mode, Schedule(problem)) && mode != other
    ensures Suits(other, Schedule(problem)) ==> Idle(problem)
  {
    ScheduleEntries(problem);
    hide Schedule, WellFormed;
    if Schedule(problem) != map[] {
      var id :| id in Schedule(problem);
      if mode.PairedDemand? && other.Singles? {
        id :| id in Schedule(problem) && Schedule(problem)[id].doubles > 0;
      } else if mode.PairedDemand? {
        id :| id in Schedule(problem) && Schedule(problem)[id].weekly > Schedule(problem)[id].doubles * 2;
      }
      assert !other.PairedDemand? ==> !Fits(other, Schedule(problem)[id]);
    }
  }

  /** A colouring phase and its guard; `pattern` is any pattern of demand. The phase made for the pattern finishes the
      timetable, and the other phases do not touch it. */
  method ColorPhase(problem: Problem, state: State<Id>, assignments: map<Id, Assignment>, cells: seq<seq<Id>>, phase: Mode, config: Config,
                    ghost pattern: Mode)
    returns (stop: bool)
    requires WellFormed(problem) && Preflight.Feasible(problem) && assignments == Schedule(problem) && InOrder(problem, state)
    requires Cellular(problem, cells, Weight(phase)) && |cells| == CellCount(problem, phase)
    modifies state
    ensures InOrder(problem, state) && Adds(old(state.books), state.books) && state.timedOut == (old(state.timedOut) || stop)
    ensures pattern == phase && Assured(problem, pattern) && old(state.books.placements) == [] && !stop ==> Finished(state.books)
    ensures pattern == phase && config.timeless && Enough(problem, pattern, config.iterationBudget - 1 - old(state.iterations)) ==> !stop
    ensures old(state.iterations) < config.iterationBudget && !stop ==> state.iterations < config.iterationBudget
    ensures pattern != phase && Suits(pattern, assignments) ==> state.books == old(state.books) && state.iterations == old(state.iterations)
    ensures pattern != phase && Suits(pattern, assignments) && config.timeless && old(state.iterations) < config.iterationBudget ==> !stop
    ensures Outstanding(problem, state.books) <= Outstanding(problem, old(state.books))
    ensures Used(old(state.iterations), state.iterations, Demanded(problem), config, stop)
  {
    hide *;
    stop := false;
    DemandIsNatural(problem, state);
    AddsNot(state.books);
    SuitsExactly(problem, state.books, phase);
    ghost var before := state.books;
    if Suits(pattern, assignments) && pattern != phase {
      OneGuard(problem, pattern, phase);
      if Idle(problem) {
        EmptyBooks(problem, state);
        EmptyLoad(problem, phase);
        EnoughMore(problem, phase, 0, config.iterationBudget - 1 - state.iterations);
      }
    }
    if state.books.placements == [] && Suits(phase, assignments) {
      stop := RunColoring(problem, state, assignments, cells, phase, config);
      AdvancesReserved(before, state.books);
      AddsMeans(before, state.books);
      if Idle(problem) {
        EmptyBooks(problem, state);
      }
    }
    AddsMeans(before, state.books);
    OutstandingFalls(problem, before, state.books);
    NowUsed(old(state.iterations), state.iterations, Demanded(problem), config, stop);
  }

  lemma DemandIsNatural(problem: Problem, state: State<Id>)
    requires WellFormed(problem) && InOrder(problem, state)
    ensures 0 <= Outstanding(problem, state.books) <= Demanded(problem)
  {
    OutstandingWithin(problem, state.books);
  }

  lemma EnoughMore(problem: Problem, mode: Mode, count: int, more: int)
    requires Enough(problem, mode, count)
    ensures more >= count ==> Enough(problem, mode, more)
  {
    hide Load, OnlySchedulable;
  }

  lemma SuitsExactly(problem: Problem, b: Books<Id>, mode: Mode)
    ensures b.placements == [] && Suits(mode, Schedule(problem)) ==> CanUseExactColoring(Schedule(problem), b, mode)
    ensures Assured(problem, mode) ==> Suits(mode, Schedule(problem)) && Unrestricted(problem) && Enough(problem, mode, CellCount(problem, mode))
  {
    hide Schedule;
  }

  lemma AdvancesReserved(before: Books<Id>, after: Books<Id>)
    requires Shrinks(before, after) && Reserved(after)
    ensures Advances(before, after)
  {
  }

  lemma NoDoublesLeft(problem: Problem, state: State<Id>)
    requires InOrder(problem, state)
    ensures Suits(Singles, Schedule(problem)) ==> !HasRemaining(state.books.doubles)
  {
    hide Schedule, Compatible, Mirrors;
  }

  lemma EnoughIsNatural(problem: Problem, mode: Mode, count: int)
    ensures Enough(problem, mode, count) ==> count >= 0
    ensures Assured(problem, mode) ==> Suits(mode, Schedule(problem))
  {
    hide Schedule, Unrestricted, OnlySchedulable, Load;
  }

  /** The phases for double lessons. */
  method DoublePhases(problem: Problem, state: State<Id>, assignments: map<Id, Assignment>, pairs: seq<seq<Id>>, config: Config, ghost pattern: Mode)
    returns (stop: bool)
    requires WellFormed(problem) && Preflight.Feasible(problem) && assignments == Schedule(problem) && InOrder(problem, state)
    requires Cellular(problem, pairs, 2) && |pairs| == CellCount(problem, Doubles)
    modifies state
    ensures InOrder(problem, state) && Adds(old(state.books), state.books) && state.timedOut == (old(state.timedOut) || stop)
    ensures !pattern.Singles? && Assured(problem, pattern) && old(state.books.placements) == [] && !stop ==> Finished(state.books)
    ensures (!pattern.Singles? && Assured(problem, pattern) && old(state.books.placements) == [] && config.timeless
             && Enough(problem, pattern, config.iterationBudget - 1 - old(state.iterations))) ==> !stop
    ensures !pattern.Singles? && Assured(problem, pattern) && old(state.books.placements) == [] && !stop ==>
              (old(state.iterations) < config.iterationBudget ==> state.iterations < config.iterationBudget)
    ensures pattern.Singles? && Suits(pattern, assignments) && !stop ==> state.books == old(state.books) && state.iterations == old(state.iterations)
    ensures pattern.Singles? && Suits(pattern, assignments) && config.timeless && old(state.iterations) < config.iterationBudget ==> !stop
    ensures !stop ==> Saturated(problem, assignments, state.occupancy, state.books, pairs, true)
    ensures Outstanding(problem, state.books) <= Outstanding(problem, old(state.books))
    ensures Used(old(state.iterations), state.iterations, PhaseCost(problem, 2, |pairs|, old(state.books), state.books), config, stop)
  {
    hide *;
    PairPhases(problem, pattern);
    ghost var b, i := state.books, state.iterations;
    DemandIsNatural(problem, state);
    EnoughIsNatural(problem, pattern, config.iterationBudget - 1 - state.iterations);
    stop := ColorPhase(problem, state, assignments, pairs, PairedDemand, config, pattern);
    ghost var c, j := state.books, state.iterations;
    ColoringPays(problem, 2, |pairs|, b, c, config, i, j, Demanded(problem), stop);
    if stop {
      return;
    }
    stop := ColorPhase(problem, state, assignments, pairs, Doubles, config, pattern);
    AddsFurther(b, c, state.books);
    UsedMore(i, j, state.iterations, Demanded(problem), Demanded(problem), 2 * Demanded(problem), config, stop);
    c, j := state.books, state.iterations;
    ColoringPays(problem, 2, |pairs|, b, c, config, i, j, 2 * Demanded(problem), stop);
    if stop {
      return;
    }
    NoDoublesLeft(problem, state);
    if Finished(c) {
      FinishedHasNone(c);
    }
    stop := Fill(problem, state, assignments, pairs, true, config);
    AddsFurther(b, c, state.books);
    FillPays(problem, 2, |pairs|, b, c, state.books, config, i, j, state.iterations, 2 * Demanded(problem), stop);
  }

  /** What `colorings` colourings and the fill of `cells` cells may spend while the outstanding demand falls from `b` to `c`. */
  ghost function PhaseCost(problem: Problem, colorings: nat, cells: nat, b: Books<Id>, c: Books<Id>): int {
    colorings * Demanded(problem) + FillCost(cells, Outstanding(problem, b), Outstanding(problem, c))
  }

  lemma ColoringPays(problem: Problem, colorings: nat, cells: nat, b: Books<Id>, c: Books<Id>, config: Config, i: int, j: int, most: int, stop: bool)
    requires Used(i, j, most, config, stop) && most <= colorings * Demanded(problem)
    requires Outstanding(problem, c) <= Outstanding(problem, b)
    ensures Used(i, j, PhaseCost(problem, colorings, cells, b, c), config, stop)
  {
    hide Outstanding, Demanded;
    ProductNatural(cells, Outstanding(problem, b) - Outstanding(problem, c) + 1);
  }

  lemma FillPays(problem: Problem, colorings: nat, cells: nat, b: Books<Id>, c: Books<Id>, d: Books<Id>, config: Config, i: int, j: int, k: int,
                 most: int, stop: bool)
    requires Used(i, j, most, config, false) && most <= colorings * Demanded(problem)
    requires Outstanding(problem, d) <= Outstanding(problem, c) <= Outstanding(problem, b)
    requires j <= k <= j + FillCost(cells, Outstanding(problem, c), Outstanding(problem, d)) && (stop && config.timeless ==> k >= config.iterationBudget)
    ensures Used(i, k, PhaseCost(problem, colorings, cells, b, d), config, stop)
  {
    hide Outstanding, Demanded;
    Distribute(cells, Outstanding(problem, b) - Outstanding(problem, c), Outstanding(problem, c) - Outstanding(problem, d) + 1);
    ProductNatural(cells, Outstanding(problem, b) - Outstanding(problem, c));
  }

  /** Iterations that are enough for every attempt, whatever the shuffles. */
  function Allowance(problem: Problem): int {
    (|UsablePeriods(problem)| + 4) * (Demanded(problem) + 2)
  }

  lemma {:induction false} GreedyBounded(periods: seq<Period>, i: nat, unavailable: set<Id>)
    requires i <= |periods|
    ensures |Greedy(periods, i, unavailable)| <= |periods| - i
    decreases |periods| - i
  {
    if i + 1 < |periods| {
      GreedyBounded(periods, i + 1, unavailable);
      GreedyBounded(periods, i + 2, unavailable);
    }
  }

  lemma SinglesCost(problem: Problem, b: Books<Id>)
    requires Demanded(problem) >= 0
    ensures PhaseCost(problem, 1, |UsablePeriods(problem)|, b, b) >= 0
  {
    hide Outstanding, Demanded, UsablePeriods;
  }

  lemma FallsWithin(pairs: nat, n: nat, x: nat, y: nat, total: nat)
    requires pairs <= n && x + y <= total + 2
    ensures pairs * x + n * y <= n * (total + 2) && (n + 4) * (total + 2) == n * (total + 2) + 4 * total + 8
  {
    Distribute(x, pairs, n - pairs);
    ProductNatural(n - pairs, x);
    Distribute(n, x, y);
    Distribute(n, x + y, total + 2 - x - y);
    ProductNatural(n, total + 2 - x - y);
  }

  /** The phases together stay within the allowance. */
  lemma PhasesPay(problem: Problem, pairs: nat, a: Books<Id>, b: Books<Id>, c: Books<Id>, d: Books<Id>)
    requires pairs == |Greedy(UsablePeriods(problem), 0, {})| && Outstanding(problem, a) <= Demanded(problem)
    requires 0 <= Outstanding(problem, d) <= Outstanding(problem, c) <= Outstanding(problem, b) <= Outstanding(problem, a)
    ensures PhaseCost(problem, 2, pairs, a, b) + PhaseCost(problem, 1, |UsablePeriods(problem)|, b, c)
            + Outstanding(problem, c) - Outstanding(problem, d) <= Allowance(problem)
  {
    GreedyBounded(UsablePeriods(problem), 0, {});
    hide Outstanding, Demanded, Greedy, UsablePeriods;
    FallsWithin(pairs, |UsablePeriods(problem)|, Outstanding(problem, a) - Outstanding(problem, b) + 1,
                Outstanding(problem, b) - Outstanding(problem, c) + 1, Demanded(problem));
  }

  lemma PairPhases(problem: Problem, pattern: Mode)
    ensures Weight(Singles) == 1 && Weight(PairedDemand) == Weight(Doubles) == 2 && CellCount(problem, PairedDemand) == CellCount(problem, Doubles)
  {
  }

  /** The phases for single lessons. */
  method SinglePhases(problem: Problem, state: State<Id>, assignments: map<Id, Assignment>, cells: seq<seq<Id>>, config: Config, ghost pattern: Mode)
    returns (stop: bool)
    requires WellFormed(problem) && Preflight.Feasible(problem) && assignments == Schedule(problem) && InOrder(problem, state)
    requires Cellular(problem, cells, 1) && |cells| == CellCount(problem, Singles)
    modifies state
    ensures InOrder(problem, state) && Adds(old(state.books), state.books) && state.timedOut == (old(state.timedOut) || stop)
    ensures pattern.Singles? && Assured(problem, pattern) && old(state.books.placements) == [] && !stop ==> Finished(state.books)
    ensures (pattern.Singles? && Assured(problem, pattern) && old(state.books.placements) == [] && config.timeless
             && Enough(problem, pattern, config.iterationBudget - 1 - old(state.iterations))) ==> !stop
    ensures !pattern.Singles? && Suits(pattern, assignments) && old(Finished(state.books)) ==> Finished(state.books)
    ensures (!pattern.Singles? && Suits(pattern, assignments) && config.timeless && old(state.iterations) < config.iterationBudget
             && old(Finished(state.books))) ==> !stop
    ensures !stop ==> Saturated(problem, assignments, state.occupancy, state.books, cells, false)
    ensures Outstanding(problem, state.books) <= Outstanding(problem, old(state.books))
    ensures Used(old(state.iterations), state.iterations, PhaseCost(problem, 1, |cells|, old(state.books), state.books), config, stop)
  {
    hide *;
    PairPhases(problem, pattern);
    ghost var b, i := state.books, state.iterations;
    DemandIsNatural(problem, state);
    EnoughIsNatural(problem, pattern, config.iterationBudget - 1 - state.iterations);
    stop := ColorPhase(problem, state, assignments, cells, Singles, config, pattern);
    ghost var c, j := state.books, state.iterations;
    if stop {
      ColoringPays(problem, 1, |cells|, b, c, config, i, j, Demanded(problem), stop);
      return;
    }
    if Finished(c) {
      FinishedHasNone(c);
    }
    stop := Fill(problem, state, assignments, cells, false, config);
    AddsFurther(b, c, state.books);
    FillPays(problem, 1, |cells|, b, c, state.books, config, i, j, state.iterations, Demanded(problem), stop);
  }

  /** The exchanges, as long as they help. */
  method RepairPhase(problem: Problem, state: State<Id>, assignments: map<Id, Assignment>, periods: seq<Id>, config: Config)
    returns (stop: bool)
    requires WellFormed(problem) && Preflight.Feasible(problem) && assignments == Schedule(problem) && InOrder(problem, state)
    requires forall hole | hole in periods :: UsableId(problem, hole)
    modifies state
    ensures InOrder(problem, state) && Advances(old(state.books), state.books) && state.timedOut == (old(state.timedOut) || stop)
    ensures old(Finished(state.books)) ==> !stop && Finished(state.books)
    ensures !stop ==> forall id :: Repair.NoExchangeFor(problem, assignments, state.occupancy, state.books, periods, id)
    ensures 0 <= Outstanding(problem, state.books) <= Outstanding(problem, old(state.books))
    ensures Repair.Resettled(old(state.books.placements), state.books.placements)
    ensures Used(old(state.iterations), state.iterations, Outstanding(problem, old(state.books)) - Outstanding(problem, state.books), config, stop)
  {
    hide *;
    ghost var b, i := state.books, state.iterations;
    AdvancesNot(b);
    stop := false;
    OutstandingInOrder(problem, state);
    Repair.ResettledNot(b.placements);
    var repaired := Repair.RepairSingles(problem, state, assignments, periods);
    RepairStep(problem, b, b, state, repaired);
    while repaired
      invariant InOrder(problem, state) && Advances(b, state.books) && state.timedOut == old(state.timedOut)
      invariant Repair.Resettled(b.placements, state.books.placements)
      invariant 0 <= Outstanding(problem, state.books) <= Outstanding(problem, b) && !stop
      invariant i <= state.iterations <= i + Outstanding(problem, b) - Outstanding(problem, state.books) - if repaired then 1 else 0
      invariant Finished(b) ==> !repaired && state.books == b
      invariant !repaired ==> forall id :: Repair.NoExchangeFor(problem, assignments, state.occupancy, state.books, periods, id)
      decreases Outstanding(problem, state.books), repaired
    {
      stop := BudgetExceeded(state, 1, config);
      if stop {
        NowUsed(i, state.iterations, Outstanding(problem, b) - Outstanding(problem, state.books), config, stop);
        return;
      }
      ghost var c := state.books;
      repaired := Repair.RepairSingles(problem, state, assignments, periods);
      RepairStep(problem, b, c, state, repaired);
    }
    NowUsed(i, state.iterations, Outstanding(problem, b) - Outstanding(problem, state.books), config, stop);
  }

  lemma RepairStep(problem: Problem, b: Books<Id>, c: Books<Id>, state: State<Id>, repaired: bool)
    requires InOrder(problem, state) && Advances(b, c) && Repair.Resettled(b.placements, c.placements)
    requires repaired ==> Repair.Improves(problem, c, state.books)
    requires !repaired ==> state.books == c
    ensures Repair.Resettled(b.placements, state.books.placements)
    ensures Advances(b, state.books) && Outstanding(problem, state.books) >= 0
    ensures repaired ==> Outstanding(problem, state.books) < Outstanding(problem, c)
  {
    hide InOrder, Outstanding, Advances, Repair.Resettled;
    OutstandingInOrder(problem, state);
    if repaired {
      Repair.ResettledFurther(b.placements, c.placements, state.books.placements);
      AdvancesFurther(b, c, state.books);
    }
  }

  // ----- the order of the lessons

  function FirstPeriod(p: Placement): Id {
    if p.periods == [] then NO_ID else p.periods[0]
  }

  /** By first period, then by assignment. */
  predicate Precedes(p: Placement, q: Placement) {
    FirstPeriod(p) < FirstPeriod(q) || (FirstPeriod(p) == FirstPeriod(q) && p.assignment <= q.assignment)
  }

  ghost predicate InLessonOrder(ps: seq<Placement>) {
    forall i, j | 0 <= i < j < |ps| :: Precedes(ps[i], ps[j])
  }

  function InsertLesson(p: Placement, ps: seq<Placement>): (r: seq<Placement>)
    ensures multiset(r) == multiset{p} + multiset(ps)
  {
    if ps == [] || Precedes(p, ps[0]) then [p] + ps
    else
      assert ps == [ps[0]] + ps[1..];
      [ps[0]] + InsertLesson(p, ps[1..])
  }

  lemma {:induction false} InsertLessonOrder(p: Placement, ps: seq<Placement>)
    requires InLessonOrder(ps)
    ensures InLessonOrder(InsertLesson(p, ps))
  {
    if ps != [] && !Precedes(p, ps[0]) {
      var rest := InsertLesson(p, ps[1..]);
      InsertLessonOrder(p, ps[1..]);
      forall j | 0 <= j < |rest|
        ensures Precedes(ps[0], rest[j])
      {
        assert rest[j] in multiset(rest);
        assert rest[j] == p || rest[j] in ps[1..];
      }
    }
  }

  /** The library's sort. */
  function SortLessons(ps: seq<Placement>): (r: seq<Placement>)
    ensures multiset(r) == multiset(ps) && InLessonOrder(r)
  {
    if ps == [] then []
    else
      assert ps == [ps[0]] + ps[1..];
      InsertLessonOrder(ps[0], SortLessons(ps[1..]));
      InsertLesson(ps[0], SortLessons(ps[1..]))
  }

  lemma ShowsPermutation(occupied: set<(Id, Id)>, kind: Kind, ps: seq<Placement>, qs: seq<Placement>)
    requires Shows(occupied, kind, ps) && multiset(ps) == multiset(qs)
    ensures Shows(occupied, kind, qs)
  {
    SameElements(ps, qs);
    forall k: Id, per: Id
      ensures Booked(kind, ps, k, per) <==> Booked(kind, qs, k, per)
    {
    }
  }

  lemma MirrorsPermutation(o: Occupancy, ps: seq<Placement>, qs: seq<Placement>)
    requires Mirrors(o, ps) && multiset(ps) == multiset(qs)
    ensures Mirrors(o, qs)
  {
    ShowsPermutation(o.teachers, TeacherUse, ps, qs);
    ShowsPermutation(o.cohorts, CohortUse, ps, qs);
    ShowsPermutation(o.learners, LearnerUse, ps, qs);
    ShowsPermutation(o.groups, GroupUse, ps, qs);
    BookingsPermutation(ResourceUse, ps, qs);
    hide Shows, Bookings;
  }

  method Sort(problem: Problem, state: State<Id>)
    requires InOrder(problem, state)
    modifies state`books
    ensures InOrder(problem, state)
    ensures state.books == old(state.books).(placements := SortLessons(old(state.books.placements)))
    ensures (old(Reserved(state.books)) ==> Reserved(state.books)) && (old(Finished(state.books)) ==> Finished(state.books))
  {
    hide *;
    SortedKeeps(problem, state, state.books);
    state.books := state.books.(placements := SortLessons(state.books.placements));
    NowInOrder(problem, state);
  }

  lemma SortedKeeps(problem: Problem, state: State<Id>, b: Books<Id>)
    requires InOrder(problem, state) && b == state.books
    ensures var sorted := b.(placements := SortLessons(b.placements));
            && Mirrors(state.occupancy, sorted.placements) && Kept(problem, sorted)
            && (Reserved(b) ==> Reserved(sorted)) && (Finished(b) ==> Finished(sorted))
  {
    MirrorsPermutation(state.occupancy, b.placements, SortLessons(b.placements));
    PermutationKeeps(problem, b, SortLessons(b.placements));
    hide Mirrors, Kept, SortLessons;
  }

  lemma NowInOrder(problem: Problem, state: State<Id>)
    requires Mirrors(state.occupancy, state.books.placements) && Kept(problem, state.books)
    ensures InOrder(problem, state)
  {
    hide Mirrors, Kept;
  }

  // ----- the attempt

  /** No two-lesson exchange makes room for another lesson. */
  ghost predicate Exhausted(problem: Problem, o: Occupancy, b: Books<Id>) {
    forall id: Id, per: Id, i: nat, hole: Id | UsableId(problem, per) && UsableId(problem, hole) ::
      !Repair.Opens(problem, Schedule(problem), o, b, id, per, i, hole)
  }

  lemma OpensBeforeSorting(problem: Problem, o: Occupancy, b: Books<Id>, id: Id, per: Id, i: nat, hole: Id)
    requires Repair.Opens(problem, Schedule(problem), o, b.(placements := SortLessons(b.placements)), id, per, i, hole)
    ensures exists j: nat :: Repair.Opens(problem, Schedule(problem), o, b, id, per, j, hole)
  {
    var sorted := b.(placements := SortLessons(b.placements));
    hide SortLessons, Schedule, Repair.Movable, Repair.Blocks;
    SameElements(b.placements, sorted.placements);
    assert sorted.placements[i] in b.placements;
    var j :| 0 <= j < |b.placements| && b.placements[j] == sorted.placements[i];
    assert Repair.Opens(problem, Schedule(problem), o, b, id, per, j, hole);
  }

  lemma SortedIsExhausted(problem: Problem, o: Occupancy, b: Books<Id>, periods: seq<Id>)
    requires forall per: Id | UsableId(problem, per) :: per in periods
    requires forall id :: Repair.NoExchangeFor(problem, Schedule(problem), o, b, periods, id)
    ensures Exhausted(problem, o, b.(placements := SortLessons(b.placements)))
  {
    var sorted := b.(placements := SortLessons(b.placements));
    hide SortLessons, UsableId, Schedule, Repair.Opens;
    forall id: Id, per: Id, i: nat, hole: Id | UsableId(problem, per) && UsableId(problem, hole)
      ensures !Repair.Opens(problem, Schedule(problem), o, sorted, id, per, i, hole)
    {
      assert Repair.NoExchangeFor(problem, Schedule(problem), o, b, periods, id);
      assert Repair.NoExchangeAt(problem, Schedule(problem), o, b, periods, id, per);
      if Repair.Opens(problem, Schedule(problem), o, sorted, id, per, i, hole) {
        OpensBeforeSorting(problem, o, b, id, per, i, hole);
      }
    }
  }

  /** Every demand is met exactly, double lessons included, and the validator has nothing to object. */
  ghost predicate Complete(problem: Problem, ps: seq<Placement>) {
    && Validator.ValidSchedule(problem, ps)
    && forall a | a in problem.assignments && Schedulable(problem, a) :: Credit(ps, a.id) == a.weekly && DoubleCount(ps, a.id) == a.doubles
  }

  lemma FinishedIsComplete(problem: Problem, state: State<Id>)
    requires WellFormed(problem) && Agreement.Ordinary(problem) && Preflight.Feasible(problem) && InOrder(problem, state) && Finished(state.books)
    ensures Complete(problem, state.books.placements)
  {
    ScheduleEntries(problem);
    hide Schedule, WellFormed, Preflight.Feasible, Mirrors, Compatible, Credit, DoubleCount, Validator.ValidSchedule;
    forall a | a in problem.assignments && Schedulable(problem, a)
      ensures Credit(state.books.placements, a.id) == a.weekly && DoubleCount(state.books.placements, a.id) == a.doubles
    {
      assert a.id in Schedule(problem) && Schedule(problem)[a.id] == a;
    }
    Agreement.CompleteIsValid(problem, state.books.placements);
  }

  lemma OrderlyAgrees(problem: Problem, state: State<Id>, inv: Validator.Invariant)
    requires WellFormed(problem) && Agreement.Ordinary(problem) && Preflight.Feasible(problem) && InOrder(problem, state)
    requires inv != Validator.DemandSatisfaction && inv != Validator.CohortCoverage
    ensures !Validator.Violates(inv, problem, state.books.placements)
  {
    ScheduleEntries(problem);
    hide Schedule, WellFormed, Preflight.Feasible, Mirrors, Compatible, Credit, DoubleCount, Validator.Violates;
    forall a | a in problem.assignments && Schedulable(problem, a)
      ensures Credit(state.books.placements, a.id) <= a.weekly
    {
      assert a.id in Schedule(problem) && Schedule(problem)[a.id] == a;
    }
    Agreement.SolverAgreesWithValidator(problem, state.books.placements, inv);
  }

  method FirstIds(problem: Problem, cells: seq<seq<Id>>) returns (ids: seq<Id>)
    requires Cellular(problem, cells, 1) && forall per: Id | UsableId(problem, per) :: [per] in cells
    ensures forall per: Id :: per in ids <==> UsableId(problem, per)
  {
    hide Cellular, UsableId;
    CellAt(problem, cells, 1);
    ids := [];
    for k := 0 to |cells|
      invariant |ids| == k && forall j | 0 <= j < k :: [ids[j]] == cells[j]
    {
      CellIsOne(problem, cells[k]);
      ids := ids + [cells[k][0]];
    }
    forall per: Id
      ensures per in ids <==> UsableId(problem, per)
    {
      if per in ids {
        var j :| 0 <= j < |ids| && ids[j] == per;
        CellIsOne(problem, cells[j]);
      }
      if UsableId(problem, per) {
        var j :| 0 <= j < |cells| && cells[j] == [per];
        assert [ids[j]] == [per];
      }
    }
  }

  lemma CellIsOne(problem: Problem, cell: seq<Id>)
    requires IsCell(problem, cell, 1)
    ensures |cell| == 1 && cell == [cell[0]] && UsableId(problem, cell[0])
  {
    assert cell[0] in cell;
  }

  // ----- what the fills leave

  /** The attempt at the end of a fill, with the cells that were filled. */
  datatype Stage = Stage(books: Books<Id>, occupancy: Occupancy, cells: seq<seq<Id>>)

  /** The stage is in order, and everything after it only takes from what is left. */
  ghost predicate Reached(problem: Problem, stage: Stage, b: Books<Id>) {
    && Mirrors(stage.occupancy, stage.books.placements) && Kept(problem, stage.books)
    && Advances(stage.books, b) && Outstanding(problem, b) <= Outstanding(problem, stage.books)
  }

  /** No double lesson that is asked for could be placed in any of the disjoint adjacent pairs. */
  ghost predicate NoPairMissed(problem: Problem, stage: Stage) {
    && Cellular(problem, stage.cells, 2) && |stage.cells| == |Greedy(UsablePeriods(problem), 0, {})|
    && forall id: Id, cell | id in Schedule(problem) && cell in stage.cells && Left(stage.books.doubles, id) > 0 && Left(stage.books.remaining, id) >= 2 ::
         !CanPlace(problem, stage.occupancy, Schedule(problem)[id], cell)
  }

  /** No assignment with periods left, and no double lesson left, could be placed in any usable period. */
  ghost predicate NoSingleMissed(problem: Problem, stage: Stage) {
    forall id: Id, per: Id | id in Schedule(problem) && UsableId(problem, per) && Left(stage.books.remaining, id) > 0 && Left(stage.books.doubles, id) == 0 ::
      !CanPlace(problem, stage.occupancy, Schedule(problem)[id], [per])
  }

  lemma NowReached(problem: Problem, state: State<Id>, cells: seq<seq<Id>>)
    requires InOrder(problem, state)
    ensures Reached(problem, Stage(state.books, state.occupancy, cells), state.books)
  {
    hide Mirrors, Kept, Advances, Outstanding;
    AdvancesNot(state.books);
  }

  lemma ReachedFurther(problem: Problem, stage: Stage, b: Books<Id>, c: Books<Id>)
    requires Reached(problem, stage, b) && Advances(b, c)
    ensures Reached(problem, stage, c)
  {
    hide Mirrors, Kept, Advances, Outstanding;
    AdvancesFurther(stage.books, b, c);
    OutstandingFalls(problem, b, c);
  }

  lemma PairsAreFull(problem: Problem, stage: Stage)
    requires Saturated(problem, Schedule(problem), stage.occupancy, stage.books, stage.cells, true)
    requires Cellular(problem, stage.cells, 2) && |stage.cells| == |Greedy(UsablePeriods(problem), 0, {})|
    ensures NoPairMissed(problem, stage)
  {
    hide CanPlace, Cellular, Schedule, Greedy, UsablePeriods;
    forall id: Id, cell | id in Schedule(problem) && cell in stage.cells && Left(stage.books.doubles, id) > 0 && Left(stage.books.remaining, id) >= 2
      ensures !CanPlace(problem, stage.occupancy, Schedule(problem)[id], cell)
    {
      assert NoCandidate(problem, Schedule(problem), stage.occupancy, stage.books, cell, true);
      assert !Candidate(problem, Schedule(problem), stage.occupancy, stage.books, id, cell, true);
    }
  }

  lemma SinglesAreFull(problem: Problem, stage: Stage)
    requires Saturated(problem, Schedule(problem), stage.occupancy, stage.books, stage.cells, false)
    requires forall per: Id | UsableId(problem, per) :: [per] in stage.cells
    ensures NoSingleMissed(problem, stage)
  {
    hide CanPlace, Schedule, UsableId;
    forall id: Id, per: Id | id in Schedule(problem) && UsableId(problem, per) && Left(stage.books.remaining, id) > 0 && Left(stage.books.doubles, id) == 0
      ensures !CanPlace(problem, stage.occupancy, Schedule(problem)[id], [per])
    {
      assert NoCandidate(problem, Schedule(problem), stage.occupancy, stage.books, [per], false);
      assert !Candidate(problem, Schedule(problem), stage.occupancy, stage.books, id, [per], false);
    }
  }

  /** The stages of an attempt, and its lessons before they are sorted. */
  datatype Course = Course(pinned: Stage, paired: Stage, filled: Stage, settled: seq<Placement>)

  /** How an attempt comes to its end: it pins the existing sessions that fit, if it is to; it then adds lessons until no pair and no
      period is missed; and then it moves single lessons until no exchange is left. */
  ghost predicate Follows(problem: Problem, config: Config, c: Course, o: Occupancy, b: Books<Id>, timedOut: bool) {
    && Begins(problem, config, c.pinned) && Reached(problem, c.pinned, b)
    && (!timedOut ==>
          && NoPairMissed(problem, c.paired) && Adds(c.pinned.books, c.paired.books) && Reached(problem, c.paired, b)
          && NoSingleMissed(problem, c.filled) && Adds(c.paired.books, c.filled.books) && Reached(problem, c.filled, b)
          && Repair.Resettled(c.filled.books.placements, c.settled) && multiset(c.settled) == multiset(b.placements)
          && InLessonOrder(b.placements) && Exhausted(problem, o, b))
  }

  /** Every existing session is pinned or does not fit, and nothing else is placed; without an incremental repair nothing is. */
  ghost predicate Begins(problem: Problem, config: Config, pinned: Stage) {
    if config.incremental then Dealt(problem, Schedule(problem), pinned.occupancy, pinned.books, problem.existing)
    else pinned.books.placements == []
  }

  lemma StartFollows(problem: Problem, config: Config, c: Course, state: State<Id>)
    requires InOrder(problem, state) && c.pinned == Stage(state.books, state.occupancy, []) && Begins(problem, config, c.pinned)
    ensures Reached(problem, c.pinned, state.books) && Follows(problem, config, c, state.occupancy, state.books, true)
  {
    NowReached(problem, state, []);
    hide Begins, Reached;
  }

  lemma StoppedFollows(problem: Problem, config: Config, c: Course, o: Occupancy, b: Books<Id>, o': Occupancy, b': Books<Id>)
    requires Follows(problem, config, c, o, b, true) && Advances(b, b')
    ensures Follows(problem, config, c, o', b', true)
  {
    ReachedFurther(problem, c.pinned, b, b');
    hide Begins, Reached;
  }

  lemma EndFollows(problem: Problem, config: Config, c: Course, o: Occupancy, b: Books<Id>)
    requires Follows(problem, config, c, o, b, true)
    requires NoPairMissed(problem, c.paired) && Adds(c.pinned.books, c.paired.books) && Reached(problem, c.paired, b)
    requires NoSingleMissed(problem, c.filled) && Adds(c.paired.books, c.filled.books) && Reached(problem, c.filled, b)
    requires Repair.Resettled(c.filled.books.placements, c.settled) && c.settled == b.placements
    requires Exhausted(problem, o, b.(placements := SortLessons(b.placements)))
    ensures Follows(problem, config, c, o, b.(placements := SortLessons(b.placements)), false)
  {
    var sorted := b.(placements := SortLessons(b.placements));
    AdvancesBySorting(b);
    ReachedFurther(problem, c.pinned, b, sorted);
    ReachedFurther(problem, c.paired, b, sorted);
    ReachedFurther(problem, c.filled, b, sorted);
    hide Begins, Reached, NoPairMissed, NoSingleMissed, Adds, Repair.Resettled, Exhausted, SortLessons, InLessonOrder;
  }

  lemma AdvancesBySorting(b: Books<Id>)
    ensures Advances(b, b.(placements := SortLessons(b.placements)))
  {
    hide SortLessons;
  }

  /** Start and pinned sessions. */
  method Open(problem: Problem, config: Config) returns (state: State<Id>, assignments: map<Id, Assignment>, ghost course: Course)
    requires WellFormed(problem) && Preflight.Feasible(problem) && (config.incremental ==> ExistingShaped(problem))
    ensures fresh(state) && assignments == Schedule(problem) && InOrder(problem, state) && state.iterations == 0 && !state.timedOut
    ensures !config.incremental ==> Reserved(state.books) && state.books.placements == []
    ensures Follows(problem, config, course, state.occupancy, state.books, true)
    ensures course.pinned == Stage(state.books, state.occupancy, [])
  {
    hide *;
    state, assignments := StartAttempt(problem);
    StartsEmpty(assignments);
    if config.incremental {
      PinExisting(problem, state, assignments);
    }
    ghost var start := Stage(state.books, state.occupancy, []);
    course := Course(start, start, start, []);
    NowBegins(problem, config, start);
    StartFollows(problem, config, course, state);
  }

  lemma StartsEmpty(assignments: map<Id, Assignment>)
    ensures InitialBooks(assignments).placements == []
  {
  }

  lemma NowBegins(problem: Problem, config: Config, start: Stage)
    requires config.incremental ==> Dealt(problem, Schedule(problem), start.occupancy, start.books, problem.existing)
    requires !config.incremental ==> start.books.placements == []
    ensures Begins(problem, config, start)
  {
    hide Dealt;
  }

  /** Start, pinned sessions, the phases and the sort. */
  method RunPhases(problem: Problem, config: Config, ghost pattern: Mode) returns (state: State<Id>, ghost course: Course)
    requires WellFormed(problem) && Preflight.Feasible(problem) && (config.incremental ==> ExistingShaped(problem))
    ensures fresh(state) && InOrder(problem, state) && Follows(problem, config, course, state.occupancy, state.books, state.timedOut)
    ensures !config.incremental ==> Reserved(state.books)
    ensures Used(0, state.iterations, Allowance(problem), config, state.timedOut)
    ensures !config.incremental && Assured(problem, pattern) && !state.timedOut ==> Finished(state.books)
    ensures (!config.incremental && Assured(problem, pattern) && config.timeless && Enough(problem, pattern, config.iterationBudget - 1)) ==>
              !state.timedOut
  {
    hide *;
    var assignments;
    state, assignments, course := Open(problem, config);
    ghost var o, start := state.occupancy, state.books;
    StartFacts(problem, pattern, config.iterationBudget - 1);
    var periods := ComputeUsablePeriods(problem);
    var pairs := PairCells(problem, periods);
    var shuffledPairs := Shuffle(pairs);
    ShuffledCells(problem, pairs, shuffledPairs, 2);
    DemandIsNatural(problem, state);
    var stop := DoublePhases(problem, state, assignments, shuffledPairs, config, pattern);
    ghost var first, i := state.books, state.iterations;
    AddsMeans(start, first);
    StoppedFollows(problem, config, course, o, start, state.occupancy, first);
    DemandIsNatural(problem, state);
    PhasesPay(problem, |shuffledPairs|, start, first, first, first);
    ghost var pairCost := PhaseCost(problem, 2, |shuffledPairs|, start, first);
    SinglesCost(problem, first);
    UsedAll(0, i, pairCost, Allowance(problem), config, stop);
    if stop {
      return;
    }
    ghost var paired := Stage(first, state.occupancy, shuffledPairs);
    NowReached(problem, state, shuffledPairs);
    PairsAreFull(problem, paired);
    o := state.occupancy;
    var singles := SingleCells(problem, periods);
    var shuffled := Shuffle(singles);
    ShuffledCells(problem, singles, shuffled, 1);
    SameElements(singles, shuffled);
    stop := SinglePhases(problem, state, assignments, shuffled, config, pattern);
    ghost var second, j := state.books, state.iterations;
    AddsMeans(first, second);
    StoppedFollows(problem, config, course, o, first, state.occupancy, second);
    DemandIsNatural(problem, state);
    PhasesPay(problem, |shuffledPairs|, start, first, second, second);
    ghost var singleCost := PhaseCost(problem, 1, |shuffled|, first, second);
    UsedMore(0, i, j, pairCost, singleCost, pairCost + singleCost, config, stop);
    UsedAll(0, j, pairCost + singleCost, Allowance(problem), config, stop);
    if stop {
      return;
    }
    ghost var filled := Stage(second, state.occupancy, shuffled);
    ReachedFurther(problem, paired, first, second);
    NowReached(problem, state, shuffled);
    SinglesAreFull(problem, filled);
    o := state.occupancy;
    var ids := FirstIds(problem, shuffled);
    stop := RepairPhase(problem, state, assignments, ids, config);
    StoppedFollows(problem, config, course, o, second, state.occupancy, state.books);
    PhasesPay(problem, |shuffledPairs|, start, first, second, state.books);
    UsedMore(0, j, state.iterations, pairCost + singleCost, Outstanding(problem, second) - Outstanding(problem, state.books), Allowance(problem), config, stop);
    if stop {
      return;
    }
    ghost var before := course;
    course := Course(before.pinned, paired, filled, state.books.placements);
    SameStart(problem, config, before, course, state.occupancy, state.books);
    SortedIsExhausted(problem, state.occupancy, state.books, ids);
    ReachedFurther(problem, paired, second, state.books);
    ReachedFurther(problem, filled, second, state.books);
    EndFollows(problem, config, course, state.occupancy, state.books);
    Sort(problem, state);
  }

  lemma SameStart(problem: Problem, config: Config, c: Course, d: Course, o: Occupancy, b: Books<Id>)
    requires Follows(problem, config, c, o, b, true) && c.pinned == d.pinned
    ensures Follows(problem, config, d, o, b, true)
  {
    hide Begins, Reached;
  }

  lemma StartFacts(problem: Problem, pattern: Mode, count: int)
    ensures Assured(problem, pattern) ==> Suits(pattern, Schedule(problem))
    ensures Enough(problem, pattern, count) ==> count >= 0
    ensures CellCount(problem, Doubles) == |Greedy(UsablePeriods(problem), 0, {})| && CellCount(problem, Singles) == |UsablePeriods(problem)|
    ensures forall a, c: Books<Id> | Advances(a, c) && Reserved(a) :: Reserved(c)
  {
    hide Schedule, Unrestricted, Shrinks, Reserved;
  }

  /** Demand that a silent preflight assures: all singles, or all doubles, or paired demand with enough adjacent pairs, where
      nobody is unavailable and no resource is needed. */
  ghost predicate Completable(problem: Problem, pattern: Mode) {
    && Unrestricted(problem) && Suits(pattern, Schedule(problem))
    && (pattern.PairedDemand? ==> Enough(problem, pattern, CellCount(problem, pattern)))
  }

  lemma CompletableIsAssured(problem: Problem, pattern: Mode)
    requires WellFormed(problem) && Preflight.Feasible(problem) && Completable(problem, pattern)
    ensures Assured(problem, pattern)
  {
    hide Unrestricted, Preflight.Feasible, Schedule, WellFormed, Suits, Enough;
    if !pattern.PairedDemand? {
      FeasibleIsEnough(problem, pattern);
    }
  }

  /** `solveAttempt` without audiences, after a silent preflight. Whatever the shuffles, and whenever the attempt stops, the
      validator can only find demand that is not met; an attempt that is not stopped misses no pair for a double lesson and then no
      period for a single one, leaves nothing that an exchange could repair, and completes every completable demand. Completing it takes
      no more iterations than the busiest teacher or cohort has units of demand, and no attempt takes more than the allowance. */
  method SolveOrdinary(problem: Problem, config: Config, ghost pattern: Mode) returns (state: State<Id>, ghost course: Course)
    requires WellFormed(problem) && Agreement.Ordinary(problem) && Preflight.Feasible(problem)
    requires config.incremental ==> ExistingShaped(problem)
    ensures fresh(state) && InOrder(problem, state)
    ensures forall inv: Validator.Invariant | inv != Validator.DemandSatisfaction && inv != Validator.CohortCoverage ::
              !Validator.Violates(inv, problem, state.books.placements)
    ensures !config.incremental ==> Reserved(state.books)
    ensures Follows(problem, config, course, state.occupancy, state.books, state.timedOut)
    ensures Finished(state.books) ==> Complete(problem, state.books.placements)
    ensures state.iterations <= Allowance(problem) && (state.timedOut && config.timeless ==> state.iterations >= config.iterationBudget)
    ensures !config.incremental && Completable(problem, pattern) && !state.timedOut ==> Complete(problem, state.books.placements)
    ensures (!config.incremental && Completable(problem, pattern) && config.timeless && Enough(problem, pattern, config.iterationBudget - 1)) ==>
              !state.timedOut
  {
    hide *;
    state, course := RunPhases(problem, config, pattern);
    UsedMeans(0, state.iterations, Allowance(problem), config, state.timedOut);
    forall inv: Validator.Invariant | inv != Validator.DemandSatisfaction && inv != Validator.CohortCoverage
      ensures !Validator.Violates(inv, problem, state.books.placements)
    {
      OrderlyAgrees(problem, state, inv);
    }
    if Completable(problem, pattern) {
      CompletableIsAssured(problem, pattern);
    }
    if Finished(state.books) {
      FinishedIsComplete(problem, state);
    }
  }
}

/** The fallback of `solveAttempt`: one maximum matching of candidate lessons per cell, again and again. */
module Filling {
  import opened Model
  import opened Lessons
  import opened Ledger
  import opened AttemptState
  import opened Engine
  import Matching
  import opened TeacherMatching

  /** The assignment still wants a lesson of this kind. */
  predicate Wants(b: Books<Id>, id: Id, double: bool) {
    if double then Left(b.doubles, id) > 0 && Left(b.remaining, id) >= 2 else Left(b.remaining, id) > 0 && Left(b.doubles, id) <= 0
  }

  predicate Candidate(problem: Problem, assignments: map<Id, Assignment>, o: Occupancy, b: Books<Id>, id: Id, cell: seq<Id>, double: bool) {
    id in assignments && Wants(b, id, double) && CanPlace(problem, o, assignments[id], cell)
  }

  function EdgeOf(a: Assignment): Matching.Edge {
    Matching.Edge(a.teacher, a.cohort, a.id)
  }

  ghost predicate StandsForCandidate(problem: Problem, assignments: map<Id, Assignment>, o: Occupancy, b: Books<Id>, cell: seq<Id>, double: bool, e: Matching.Edge) {
    Candidate(problem, assignments, o, b, e.assignment, cell, double) && e == EdgeOf(assignments[e.assignment])
  }

  /** `candidateEdges`, in no particular order: the priorities are random. */
  method CandidateEdges(problem: Problem, assignments: map<Id, Assignment>, o: Occupancy, b: Books<Id>, cell: seq<Id>, double: bool)
    returns (edges: seq<Matching.Edge>)
    requires forall id | id in assignments :: assignments[id].id == id
    ensures forall e | e in edges :: StandsForCandidate(problem, assignments, o, b, cell, double, e)
    ensures forall id | Candidate(problem, assignments, o, b, id, cell, double) :: EdgeOf(assignments[id]) in edges
  {
    hide CanPlace, Wants;
    var keys := KeysInSomeOrder(assignments);
    var found: seq<Matching.Edge> := [];
    for k := 0 to |keys|
      invariant forall e | e in found :: StandsForCandidate(problem, assignments, o, b, cell, double, e)
      invariant forall j | 0 <= j < k && Candidate(problem, assignments, o, b, keys[j], cell, double) :: EdgeOf(assignments[keys[j]]) in found
    {
      var a := assignments[keys[k]];
      if Wants(b, a.id, double) && CanPlace(problem, o, a, cell) {
        found := found + [EdgeOf(a)];
      }
    }
    edges := Shuffle(found);
    SameElements(found, edges);
  }

  // ----- termination

  function TotalLeft(list: seq<Assignment>, b: Books<Id>): int {
    if list == [] then 0 else TotalLeft(list[..|list| - 1], b) + Left(b.remaining, list[|list| - 1].id)
  }

  /** The demand still to be placed. */
  function Outstanding(problem: Problem, b: Books<Id>): int {
    TotalLeft(OnlySchedulable(problem, problem.assignments), b)
  }

  lemma {:induction false} TotalLeftShrinks(list: seq<Assignment>, before: Books<Id>, after: Books<Id>, id: Id)
    requires Shrinks(before, after) && (forall a | a in list :: a.id in before.remaining)
    requires Left(after.remaining, id) < Left(before.remaining, id)
    ensures TotalLeft(list, after) <= TotalLeft(list, before)
    ensures (exists a | a in list :: a.id == id) ==> TotalLeft(list, after) < TotalLeft(list, before)
  {
    if list != [] {
      assert list == list[..|list| - 1] + [list[|list| - 1]];
      TotalLeftShrinks(list[..|list| - 1], before, after, id);
    }
  }

  lemma {:induction false} TotalLeftNatural(list: seq<Assignment>, b: Books<Id>)
    requires forall id | id in b.remaining :: b.remaining[id] >= 0
    ensures TotalLeft(list, b) >= 0
  {
    if list != [] {
      TotalLeftNatural(list[..|list| - 1], b);
    }
  }

  lemma OutstandingNatural(problem: Problem, b: Books<Id>)
    requires Kept(problem, b)
    ensures Outstanding(problem, b) >= 0
  {
    hide Compatible, Schedule, Credit, DoubleCount;
    TotalLeftNatural(OnlySchedulable(problem, problem.assignments), b);
  }

  lemma OutstandingShrinks(problem: Problem, before: Books<Id>, after: Books<Id>, id: Id)
    requires WellFormed(problem) && Kept(problem, before) && Shrinks(before, after) && id in Schedule(problem)
    requires Left(after.remaining, id) < Left(before.remaining, id)
    ensures Outstanding(problem, after) < Outstanding(problem, before)
  {
    hide Compatible, Schedule, Credit, DoubleCount;
    ScheduleEntries(problem);
    OnlySchedulableElements(problem, problem.assignments);
    TotalLeftShrinks(OnlySchedulable(problem, problem.assignments), before, after, id);
    assert Schedule(problem)[id] in OnlySchedulable(problem, problem.assignments);
  }

  // ----- one cell

  /** A step from `before` to `after` takes from the outstanding demand, and keeps the room for doubles. */
  ghost predicate Advances(before: Books<Id>, after: Books<Id>) {
    Shrinks(before, after) && (Reserved(before) ==> Reserved(after))
  }

  lemma AdvancesFurther(a: Books<Id>, b: Books<Id>, c: Books<Id>)
    requires Advances(a, b) && Advances(b, c)
    ensures Advances(a, c)
  {
    ShrinksFurther(a, b, c);
  }

  lemma AdvancesNot(b: Books<Id>)
    ensures Advances(b, b)
  {
    ShrinksNot(b);
  }

  /** An advance that only adds lessons. */
  ghost predicate Adds(before: Books<Id>, after: Books<Id>) {
    Advances(before, after) && before.placements <= after.placements
  }

  lemma AddsFurther(a: Books<Id>, b: Books<Id>, c: Books<Id>)
    requires Adds(a, b) && Adds(b, c)
    ensures Adds(a, c)
  {
    AdvancesFurther(a, b, c);
    hide Advances;
  }

  lemma AddsNot(b: Books<Id>)
    ensures Adds(b, b)
  {
    AdvancesNot(b);
  }

  lemma AddsMeans(b: Books<Id>, c: Books<Id>)
    ensures Adds(b, c) ==> Advances(b, c)
    ensures Advances(b, c) && b.placements == [] ==> Adds(b, c)
  {
    hide Advances;
  }

  lemma EnterReserves(problem: Problem, b: Books<Id>, a: Assignment, cell: seq<Id>, double: bool)
    requires Reserved(b) && Kept(problem, b) && a.id in Schedule(problem) && Wants(b, a.id, double) && |cell| == if double then 2 else 1
    ensures Reserved(Enter(b, LessonOf(problem, a, cell, double), a.id))
  {
    hide Compatible, Schedule, Credit, DoubleCount;
  }

  lemma WantsElsewhere(b: Books<Id>, p: Placement, key: Id, other: Id, double: bool)
    requires Wants(b, other, double) && other != key
    ensures Wants(Enter(b, p, key), other, double)
  {
  }

  ghost predicate AllWant(b: Books<Id>, matches: seq<Matching.Edge>, k: nat, double: bool) {
    forall j | k <= j < |matches| :: Wants(b, matches[j].assignment, double)
  }

  lemma AllWantNext(b: Books<Id>, p: Placement, matches: seq<Matching.Edge>, k: nat, double: bool)
    requires AllWant(b, matches, k, double) && k < |matches|
    requires forall i, j | 0 <= i < j < |matches| :: matches[i].assignment != matches[j].assignment
    ensures AllWant(Enter(b, p, matches[k].assignment), matches, k + 1, double)
  {
    hide Wants;
    forall j | k + 1 <= j < |matches|
      ensures Wants(Enter(b, p, matches[k].assignment), matches[j].assignment, double)
    {
      WantsElsewhere(b, p, matches[k].assignment, matches[j].assignment, double);
    }
  }

  lemma EnteredAdds(b: Books<Id>, p: Placement, key: Id)
    requires key in b.remaining && key in b.doubles && (Reserved(b) ==> Reserved(Enter(b, p, key)))
    ensures Adds(b, Enter(b, p, key)) && Shrinks(b, Enter(b, p, key))
  {
    EnterShrinks(b, p, key);
    hide Reserved, Shrinks;
  }

  lemma EnterLowers(problem: Problem, b: Books<Id>, a: Assignment, cell: seq<Id>, double: bool)
    requires cell != []
    ensures Left(Enter(b, LessonOf(problem, a, cell, double), a.id).remaining, a.id) < Left(b.remaining, a.id)
  {
  }

  /** One lesson of the matching, if its cell is still free. */
  method FillOne(problem: Problem, state: State<Id>, a: Assignment, cell: seq<Id>, double: bool) returns (placed: bool)
    requires WellFormed(problem) && InOrder(problem, state) && a.id in Schedule(problem) && Schedule(problem)[a.id] == a
    requires IsCell(problem, cell, if double then 2 else 1) && Wants(state.books, a.id, double)
    modifies state`books, state`occupancy
    ensures InOrder(problem, state) && Adds(old(state.books), state.books)
    ensures placed == CanPlace(problem, old(state.occupancy), a, cell)
    ensures placed ==> state.books == Enter(old(state.books), LessonOf(problem, a, cell, double), a.id)
    ensures placed ==> Outstanding(problem, state.books) < Outstanding(problem, old(state.books))
    ensures !placed ==> state.books == old(state.books) && state.occupancy == old(state.occupancy)
  {
    hide WellFormed, Compatible, Schedule, Mirrors, CanPlace, Reserved, Outstanding, Adds, Enter, Shrinks;
    ghost var before := state.books;
    AddsNot(before);
    placed := CanPlace(problem, state.occupancy, a, cell);
    if placed {
      Place(problem, state, a, cell, double);
      if Reserved(before) {
        EnterReserves(problem, before, a, cell, double);
      }
      EnteredAdds(before, LessonOf(problem, a, cell, double), a.id);
      EnterLowers(problem, before, a, cell, double);
      OutstandingShrinks(problem, before, state.books, a.id);
    }
  }

  ghost predicate NoCandidate(problem: Problem, assignments: map<Id, Assignment>, o: Occupancy, b: Books<Id>, cell: seq<Id>, double: bool) {
    forall id :: !Candidate(problem, assignments, o, b, id, cell, double)
  }

  /** What a maximum matching of the candidates is worth: different lessons, all wanted, and at least one if there are candidates. */
  lemma MatchingOfCandidates(problem: Problem, assignments: map<Id, Assignment>, o: Occupancy, b: Books<Id>, cell: seq<Id>, double: bool,
                             edges: seq<Matching.Edge>, matches: seq<Matching.Edge>)
    requires forall e | e in edges :: StandsForCandidate(problem, assignments, o, b, cell, double, e)
    requires forall id | Candidate(problem, assignments, o, b, id, cell, double) :: EdgeOf(assignments[id]) in edges
    requires IsDisjointChoice(edges, matches) && forall other | IsDisjointChoice(edges, other) :: |other| <= |matches|
    ensures forall i, j | 0 <= i < j < |matches| :: matches[i].assignment != matches[j].assignment
    ensures forall e | e in matches :: e.assignment in assignments
    ensures AllWant(b, matches, 0, double)
    ensures matches != [] ==> CanPlace(problem, o, assignments[matches[0].assignment], cell)
    ensures matches == [] ==> NoCandidate(problem, assignments, o, b, cell, double)
  {
    hide CanPlace, Wants;
    forall i | 0 <= i < |matches|
      ensures StandsForCandidate(problem, assignments, o, b, cell, double, matches[i])
    {
      assert matches[i] in edges;
    }
    if edges != [] {
      assert IsDisjointChoice(edges, [edges[0]]);
    }
  }

  /** One cell: it makes progress exactly when some lesson can be placed in it. */
  method FillCell(problem: Problem, state: State<Id>, assignments: map<Id, Assignment>, cell: seq<Id>, double: bool) returns (progress: bool)
    requires WellFormed(problem) && assignments == Schedule(problem) && InOrder(problem, state)
    requires IsCell(problem, cell, if double then 2 else 1)
    modifies state`books, state`occupancy
    ensures InOrder(problem, state) && Adds(old(state.books), state.books)
    ensures progress ==> Outstanding(problem, state.books) < Outstanding(problem, old(state.books))
    ensures !progress ==> state.books == old(state.books) && state.occupancy == old(state.occupancy)
    ensures !progress ==> NoCandidate(problem, assignments, state.occupancy, state.books, cell, double)
  {
    hide *;
    ScheduleEntries(problem);
    var o, b := state.occupancy, state.books;
    var edges := CandidateEdges(problem, assignments, o, b, cell, double);
    var matches := MaximumMatching(edges);
    MatchingOfCandidates(problem, assignments, o, b, cell, double, edges, matches);
    AddsNot(b);
    progress := false;
    for k := 0 to |matches|
      invariant InOrder(problem, state) && Adds(b, state.books)
      invariant AllWant(state.books, matches, k, double)
      invariant progress ==> Outstanding(problem, state.books) < Outstanding(problem, b)
      invariant !progress ==> state.books == b && state.occupancy == o && k == 0
    {
      var id := matches[k].assignment;
      assert matches[k] in matches;
      ghost var before := state.books;
      assert Wants(before, id, double) by {
        AllWantAt(before, matches, k, double);
      }
      var placed := FillOne(problem, state, assignments[id], cell, double);
      if placed {
        AllWantNext(before, LessonOf(problem, assignments[id], cell, double), matches, k, double);
        progress := true;
      } else {
        AllWantLater(before, matches, k, double);
      }
      AddsFurther(b, before, state.books);
    }
  }

  lemma AllWantAt(b: Books<Id>, matches: seq<Matching.Edge>, k: nat, double: bool)
    requires AllWant(b, matches, k, double) && k < |matches|
    ensures Wants(b, matches[k].assignment, double)
  {
  }

  lemma AllWantLater(b: Books<Id>, matches: seq<Matching.Edge>, k: nat, double: bool)
    requires AllWant(b, matches, k, double)
    ensures AllWant(b, matches, k + 1, double)
  {
  }

  // ----- all cells, until nothing fits any more

  predicate HasRemaining(m: map<Id, int>) {
    exists id | id in m :: m[id] > 0
  }

  /** No lesson of this kind fits into any of the cells. */
  ghost predicate Saturated(problem: Problem, assignments: map<Id, Assignment>, o: Occupancy, b: Books<Id>, cells: seq<seq<Id>>, double: bool) {
    forall cell | cell in cells :: NoCandidate(problem, assignments, o, b, cell, double)
  }

  /** One cell, if the budget allows it. */
  method TryCell(problem: Problem, state: State<Id>, assignments: map<Id, Assignment>, cell: seq<Id>, double: bool, config: Config)
    returns (filled: bool, stop: bool)
    requires WellFormed(problem) && assignments == Schedule(problem) && InOrder(problem, state)
    requires IsCell(problem, cell, if double then 2 else 1)
    modifies state
    ensures InOrder(problem, state) && Adds(old(state.books), state.books)
    ensures state.timedOut == (old(state.timedOut) || stop) && state.iterations == old(state.iterations) + 1
    ensures filled ==> Outstanding(problem, state.books) < Outstanding(problem, old(state.books))
    ensures !filled ==> state.books == old(state.books) && state.occupancy == old(state.occupancy)
    ensures !filled && !stop ==> NoCandidate(problem, assignments, state.occupancy, state.books, cell, double)
    ensures stop && config.timeless ==> state.iterations >= config.iterationBudget
  {
    hide *;
    AddsNot(state.books);
    filled := false;
    stop := BudgetExceeded(state, 1, config);
    if !stop {
      filled := FillCell(problem, state, assignments, cell, double);
    }
  }

  /** One pass over the cells. */
  method FillPass(problem: Problem, state: State<Id>, assignments: map<Id, Assignment>, cells: seq<seq<Id>>, double: bool, config: Config)
    returns (progress: bool, stop: bool)
    requires WellFormed(problem) && assignments == Schedule(problem) && InOrder(problem, state)
    requires Cellular(problem, cells, if double then 2 else 1)
    modifies state
    ensures InOrder(problem, state) && Adds(old(state.books), state.books)
    ensures state.timedOut == (old(state.timedOut) || stop)
    ensures progress ==> Outstanding(problem, state.books) < Outstanding(problem, old(state.books))
    ensures !progress ==> state.books == old(state.books)
    ensures !progress && !stop ==> Saturated(problem, assignments, state.occupancy, state.books, cells, double)
    ensures old(state.iterations) <= state.iterations <= old(state.iterations) + |cells|
    ensures stop && config.timeless ==> state.iterations >= config.iterationBudget
  {
    ghost var o, b := state.occupancy, state.books;
    hide *;
    CellAt(problem, cells, if double then 2 else 1);
    AddsNot(b);
    NothingSaturated(problem, assignments, o, b, cells, double);
    progress, stop := false, false;
    for k := 0 to |cells|
      invariant InOrder(problem, state) && Adds(b, state.books)
      invariant state.timedOut == old(state.timedOut) && state.iterations == old(state.iterations) + k
      invariant progress ==> Outstanding(problem, state.books) < Outstanding(problem, b)
      invariant !progress ==> state.books == b && state.occupancy == o
      invariant !progress ==> Saturated(problem, assignments, o, b, cells[..k], double)
    {
      ghost var before := state.books;
      var filled;
      filled, stop := TryCell(problem, state, assignments, cells[k], double, config);
      AddsFurther(b, before, state.books);
      progress := progress || filled;
      if stop {
        return;
      }
      if !progress {
        SaturatedMore(problem, assignments, o, b, cells, k, double);
      }
    }
    AllCells(cells);
  }

  lemma AllCells(cells: seq<seq<Id>>)
    ensures cells[..|cells|] == cells
  {
  }

  lemma CellAt(problem: Problem, cells: seq<seq<Id>>, size: nat)
    requires Cellular(problem, cells, size)
    ensures forall k | 0 <= k < |cells| :: IsCell(problem, cells[k], size)
  {
    hide IsCell;
    forall k | 0 <= k < |cells|
      ensures IsCell(problem, cells[k], size)
    {
      assert cells[k] in cells;
    }
  }

  lemma SaturatedMore(problem: Problem, assignments: map<Id, Assignment>, o: Occupancy, b: Books<Id>, cells: seq<seq<Id>>, k: nat, double: bool)
    requires k < |cells| && Saturated(problem, assignments, o, b, cells[..k], double) && NoCandidate(problem, assignments, o, b, cells[k], double)
    ensures Saturated(problem, assignments, o, b, cells[..k + 1], double)
  {
    hide NoCandidate;
    assert cells[..k + 1] == cells[..k] + [cells[k]];
  }

  lemma NothingSaturated(problem: Problem, assignments: map<Id, Assignment>, o: Occupancy, b: Books<Id>, cells: seq<seq<Id>>, double: bool)
    ensures Saturated(problem, assignments, o, b, cells[..0], double)
  {
  }

  /** Where nothing is wanted, nothing is missed. */
  lemma NothingWanted(problem: Problem, assignments: map<Id, Assignment>, o: Occupancy, b: Books<Id>, cells: seq<seq<Id>>, double: bool)
    requires !HasRemaining(if double then b.doubles else b.remaining)
    ensures Saturated(problem, assignments, o, b, cells, double)
  {
    hide CanPlace;
    forall cell, id | cell in cells
      ensures !Candidate(problem, assignments, o, b, id, cell, double)
    {
      assert !Wants(b, id, double);
    }
  }

  lemma {:induction false} TotalLeftFalls(list: seq<Assignment>, before: Books<Id>, after: Books<Id>)
    requires Shrinks(before, after)
    ensures TotalLeft(list, after) <= TotalLeft(list, before)
  {
    if list != [] {
      TotalLeftFalls(list[..|list| - 1], before, after);
    }
  }

  lemma OutstandingFalls(problem: Problem, before: Books<Id>, after: Books<Id>)
    requires Advances(before, after)
    ensures Outstanding(problem, after) <= Outstanding(problem, before)
  {
    TotalLeftFalls(OnlySchedulable(problem, problem.assignments), before, after);
  }

  lemma OutstandingWithin(problem: Problem, b: Books<Id>)
    requires WellFormed(problem) && Kept(problem, b)
    ensures 0 <= Outstanding(problem, b) <= Demanded(problem)
  {
    OutstandingNatural(problem, b);
    OnlySchedulableElements(problem, problem.assignments);
    ScheduleEntries(problem);
    hide Compatible, Schedule, Credit, DoubleCount, OnlySchedulable, WellFormed;
    LeftWithin(OnlySchedulable(problem, problem.assignments), b);
  }

  lemma {:induction false} LeftWithin(list: seq<Assignment>, b: Books<Id>)
    requires forall a | a in list :: Left(b.remaining, a.id) <= a.weekly
    ensures TotalLeft(list, b) <= WeeklyTotal(list)
  {
    if list != [] {
      assert list[|list| - 1] in list;
      LeftWithin(list[..|list| - 1], b);
    }
  }

  lemma Distribute(cells: nat, x: int, y: int)
    ensures cells * (x + y) == cells * x + cells * y
  {
  }

  lemma ProductNatural(cells: nat, x: nat)
    ensures cells * x >= 0
  {
  }

  /** What a fill of `cells` cells may spend while the outstanding demand falls: one pass for each lesson, and a last one. */
  function FillCost(cells: nat, before: int, after: int): int {
    cells * (before - after + 1)
  }

  /** A pass that places something is paid for by what it places; one that does not ends the loop. */
  lemma PassIsPaid(cells: nat, first: int, before: int, after: int)
    requires after <= before <= first
    ensures FillCost(cells, first, before) + (if after < before then cells else 0) <= FillCost(cells, first, after)
    ensures FillCost(cells, first, first) == cells
  {
    Distribute(cells, first - before + 1, before - after);
    if after < before {
      Distribute(cells, before - after - 1, 1);
      ProductNatural(cells, before - after - 1);
    }
  }

  /** The `for progress` loops: they end because the outstanding demand decreases, and without the budget running out they
      end only when nothing that is wanted fits. */
  method Fill(problem: Problem, state: State<Id>, assignments: map<Id, Assignment>, cells: seq<seq<Id>>, double: bool, config: Config)
    returns (stop: bool)
    requires WellFormed(problem) && assignments == Schedule(problem) && InOrder(problem, state)
    requires Cellular(problem, cells, if double then 2 else 1)
    modifies state
    ensures InOrder(problem, state) && Adds(old(state.books), state.books)
    ensures state.timedOut == (old(state.timedOut) || stop)
    ensures !stop ==> Saturated(problem, assignments, state.occupancy, state.books, cells, double)
    ensures !HasRemaining(if double then old(state.books.doubles) else old(state.books.remaining)) ==>
              !stop && state.books == old(state.books) && state.iterations == old(state.iterations)
    ensures Outstanding(problem, state.books) <= Outstanding(problem, old(state.books))
    ensures old(state.iterations) <= state.iterations
         <= old(state.iterations) + FillCost(|cells|, Outstanding(problem, old(state.books)), Outstanding(problem, state.books))
    ensures stop && config.timeless ==> state.iterations >= config.iterationBudget
  {
    hide *;
    ghost var b := state.books;
    AddsNot(b);
    var progress := true;
    stop := false;
    OutstandingInOrder(problem, state);
    PassIsPaid(|cells|, Outstanding(problem, b), Outstanding(problem, b), Outstanding(problem, b));
    while progress && HasRemaining(if double then state.books.doubles else state.books.remaining)
      invariant InOrder(problem, state) && Adds(b, state.books)
      invariant state.timedOut == old(state.timedOut) && !stop
      invariant !progress ==> Saturated(problem, assignments, state.occupancy, state.books, cells, double)
      invariant !HasRemaining(if double then b.doubles else b.remaining) ==> state.books == b && state.iterations == old(state.iterations)
      invariant 0 <= Outstanding(problem, state.books) <= Outstanding(problem, b)
      invariant old(state.iterations) <= state.iterations
      invariant state.iterations <= old(state.iterations) + FillCost(|cells|, Outstanding(problem, b), Outstanding(problem, state.books))
                                    - if progress then |cells| else 0
      decreases Outstanding(problem, state.books), progress
    {
      ghost var before := state.books;
      progress, stop := FillPass(problem, state, assignments, cells, double, config);
      AddsFurther(b, before, state.books);
      OutstandingInOrder(problem, state);
      PassIsPaid(|cells|, Outstanding(problem, b), Outstanding(problem, before), Outstanding(problem, state.books));
      if stop {
        return;
      }
    }
    if !HasRemaining(if double then state.books.doubles else state.books.remaining) {
      NothingWanted(problem, assignments, state.occupancy, state.books, cells, double);
    }
  }

  lemma OutstandingInOrder(problem: Problem, state: State<Id>)
    requires InOrder(problem, state)
    ensures Outstanding(problem, state.books) >= 0
  {
    OutstandingNatural(problem, state.books);
  }

  lemma FinishedHasNone(b: Books<Id>)
    requires Finished(b)
    ensures !HasRemaining(b.remaining) && !HasRemaining(b.doubles)
  {
  }
}
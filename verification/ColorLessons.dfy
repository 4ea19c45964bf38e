/** Turning colours into lessons: the three phases of `solveAttempt` that work from an exact edge colouring. */
module ColorLessons {
  import opened Model
  import opened Lessons
  import opened Ledger
  import opened AttemptState
  import opened EdgeColoring
  import opened Engine
  import Preflight
  import Agreement

  /** The periods that one unit of a colour takes. */
  function Weight(mode: Mode): nat {
    if mode.Singles? then 1 else 2
  }

  /** The demand that a mode can schedule completely. */
  predicate Fits(mode: Mode, a: Assignment) {
    match mode
    case Singles => a.doubles == 0
    case Doubles => a.weekly == 2 * a.doubles
    case PairedDemand => a.weekly % 2 == 0
  }

  /** `canUseExactColoring`. */
  predicate CanUseExactColoring(assignments: map<Id, Assignment>, b: Books<Id>, mode: Mode) {
    b.placements == [] && forall id | id in assignments :: Fits(mode, assignments[id])
  }

  // ----- one lesson, or two, for one unit

  /** The books after one unit of `a` was placed in `cell`. */
  function After(problem: Problem, b: Books<Id>, a: Assignment, cell: seq<Id>, mode: Mode): Books<Id>
    requires |cell| == Weight(mode)
  {
    if mode.Singles? then Enter(b, LessonOf(problem, a, cell, false), a.id)
    else if mode.Doubles? || Left(b.doubles, a.id) > 0 then Enter(b, LessonOf(problem, a, cell, true), a.id)
    else Enter(Enter(b, LessonOf(problem, a, cell[..1], false), a.id), LessonOf(problem, a, cell[1..], false), a.id)
  }

  /** The unit is owed: enough periods are left, and doubles where the mode asks for them. */
  predicate UnitOwed(b: Books<Id>, a: Assignment, mode: Mode) {
    Left(b.remaining, a.id) >= Weight(mode) && (mode.Doubles? ==> Left(b.doubles, a.id) > 0)
  }

  /** A lesson elsewhere leaves a free cell free. */
  lemma StillFree(problem: Problem, o: Occupancy, a: Assignment, p: Placement, per: Id)
    requires FreeCell(problem, o, a, per) && per !in p.periods
    ensures FreeCell(problem, Occupied(o, p), a, per)
  {
    hide OpenCell, Capacity, Pairs, Keys;
    PairsMember(Keys(ResourceUse, p), p.periods, a.resource, per);
  }

  lemma HalvesPlaceable(problem: Problem, o: Occupancy, b: Books<Id>, a: Assignment, cell: seq<Id>)
    requires a.id in Schedule(problem) && Schedule(problem)[a.id] == a
    requires IsCell(problem, cell, 2) && CanPlace(problem, o, a, cell) && Left(b.remaining, a.id) >= 2
    ensures Placeable(problem, o, b, a, cell[..1], false)
    ensures var first := LessonOf(problem, a, cell[..1], false);
            Placeable(problem, Occupied(o, first), Enter(b, first, a.id), a, cell[1..], false)
  {
    hide Schedule, FreeCell, Occupied, UsableId;
    var first := LessonOf(problem, a, cell[..1], false);
    assert cell[0] in cell && cell[1] in cell && cell[0] != cell[1];
    StillFree(problem, o, a, first, cell[1]);
  }

  /** The body of the innermost loop of a colouring phase. */
  method PlaceUnit(problem: Problem, state: State<Id>, a: Assignment, cell: seq<Id>, mode: Mode)
    requires WellFormed(problem) && InOrder(problem, state) && a.id in Schedule(problem) && Schedule(problem)[a.id] == a
    requires IsCell(problem, cell, Weight(mode)) && UnitOwed(state.books, a, mode)
    modifies state`books, state`occupancy
    ensures InOrder(problem, state)
    ensures state.books == if CanPlace(problem, old(state.occupancy), a, cell) then After(problem, old(state.books), a, cell, mode)
                           else old(state.books)
  {
    hide WellFormed, InOrder, Schedule, CanPlace;
    if !CanPlace(problem, state.occupancy, a, cell) {
      return;
    }
    if mode.Singles? {
      Place(problem, state, a, cell, false);
    } else if mode.Doubles? || Left(state.books.doubles, a.id) > 0 {
      Place(problem, state, a, cell, true);
    } else {
      HalvesPlaceable(problem, state.occupancy, state.books, a, cell);
      Place(problem, state, a, cell[..1], false);
      Place(problem, state, a, cell[1..], false);
    }
  }

  // ----- progress

  /** After `done` colours with the assignment: `credit` periods and `doubles` doubles, all of them if nothing restricts it. */
  predicate Advanced(mode: Mode, a: Assignment, credit: nat, doubles: nat, done: nat, exact: bool) {
    var units := credit / Weight(mode);
    && credit == units * Weight(mode) && units <= done && (exact ==> units == done)
    && doubles == if units < a.doubles then units else a.doubles
  }

  /** The lesson belongs to the `d`-th colour and its cell. */
  ghost predicate InClass(cells: seq<seq<Id>>, classes: seq<seq<Id>>, p: Placement, d: nat) {
    && d < |classes| && d < |cells| && p.assignment in classes[d]
    && forall per | per in p.periods :: per in cells[d]
  }

  ghost predicate InSomeClass(cells: seq<seq<Id>>, classes: seq<seq<Id>>, p: Placement) {
    exists d :: InClass(cells, classes, p, d)
  }

  ghost predicate AllAdvanced(assignments: map<Id, Assignment>, classes: seq<seq<Id>>, mode: Mode, b: Books<Id>, exact: bool) {
    forall id | id in assignments ::
      Advanced(mode, assignments[id], Credit(b.placements, id), DoubleCount(b.placements, id), Occurrences(classes, id), exact)
  }

  /** The phase has dealt with `classes` and nothing else. */
  ghost predicate Underway(assignments: map<Id, Assignment>, classes: seq<seq<Id>>, cells: seq<seq<Id>>, mode: Mode, b: Books<Id>, exact: bool) {
    && (forall p | p in b.placements :: InSomeClass(cells, classes, p))
    && AllAdvanced(assignments, classes, mode, b, exact)
  }

  /** Nothing is unavailable to the assignment in a usable period, and it needs no resource. */
  ghost predicate Unhindered(problem: Problem, a: Assignment) {
    a.resource == NO_ID && forall per | UsableId(problem, per) :: !TeacherBlocked(problem, a.teacher, per) && !CohortBlocked(problem, a.cohort, per)
  }

  ghost predicate Unrestricted(problem: Problem) {
    forall a | a in problem.assignments && Schedulable(problem, a) :: Unhindered(problem, a)
  }

  lemma NotBusy(problem: Problem, assignments: map<Id, Assignment>, b: Books<Id>, classes: seq<seq<Id>>, lessons: seq<Id>, cells: seq<seq<Id>>,
                size: nat, id: Id, per: Id)
    requires WellFormed(problem) && Compatible(problem, assignments, b.placements)
    requires Cellular(problem, cells, size) && 0 < |classes| <= |cells| && per in cells[|classes| - 1]
    requires classes[|classes| - 1] == lessons && Simultaneous(assignments, lessons + [id])
    requires forall p | p in b.placements :: InSomeClass(cells, classes, p)
    ensures !Booked(TeacherUse, b.placements, assignments[id].teacher, per)
    ensures !Booked(CohortUse, b.placements, assignments[id].cohort, per)
  {
    var c := |classes| - 1;
    assert (lessons + [id])[|lessons|] == id;
    hide LegalLesson, AtMostOnce;
    forall p | p in b.placements && per in p.periods
      ensures p.teacher != assignments[id].teacher && assignments[id].cohort !in Keys(CohortUse, p)
    {
      LegalFacts(problem, assignments, p);
      var d :| InClass(cells, classes, p, d);
      DifferentCells(problem, cells, size, c, d, per);
      assert d == c;
      var i :| 0 <= i < |lessons| && lessons[i] == p.assignment;
      assert (lessons + [id])[i] == p.assignment;
    }
  }

  lemma DifferentCells(problem: Problem, cells: seq<seq<Id>>, size: nat, c: nat, d: nat, per: Id)
    requires Cellular(problem, cells, size) && c < |cells| && d < |cells| && per in cells[c] && per in cells[d]
    ensures c == d
  {
    hide IsCell;
    assert cells[c] in cells && cells[d] in cells;
  }

  lemma LegalFacts(problem: Problem, assignments: map<Id, Assignment>, p: Placement)
    requires WellFormed(problem) && LegalLesson(problem, assignments, p)
    ensures p.assignment in assignments && p.teacher == assignments[p.assignment].teacher
    ensures Keys(CohortUse, p) == [assignments[p.assignment].cohort]
  {
    CohortKeys(problem, assignments, p);
  }

  /** The cell of the current colour is free for the next lesson of that colour. */
  lemma CellIsFree(problem: Problem, o: Occupancy, b: Books<Id>, classes: seq<seq<Id>>, lessons: seq<Id>, cells: seq<seq<Id>>,
                   size: nat, id: Id)
    requires WellFormed(problem) && Mirrors(o, b.placements) && Kept(problem, b) && id in Schedule(problem)
    requires Cellular(problem, cells, size) && 0 < |classes| <= |cells|
    requires classes[|classes| - 1] == lessons && Simultaneous(Schedule(problem), lessons + [id])
    requires forall p | p in b.placements :: InSomeClass(cells, classes, p)
    requires Unhindered(problem, Schedule(problem)[id])
    requires LocalTeacher(problem, Schedule(problem)[id].teacher) && LocalCohort(problem, Schedule(problem)[id].cohort)
    ensures CanPlace(problem, o, Schedule(problem)[id], cells[|classes| - 1])
  {
    var cell := cells[|classes| - 1];
    assert cell in cells && IsCell(problem, cell, size);
    hide Cellular, InSomeClass, Simultaneous, WellFormed, Compatible, Booked, Balanced, Schedule, Bookings;
    forall per | per in cell
      ensures FreeCell(problem, o, Schedule(problem)[id], per)
    {
      assert UsableId(problem, per);
      NotBusy(problem, Schedule(problem), b, classes, lessons, cells, size, id, per);
    }
  }

  lemma OneMore(lessons: seq<Id>, j: nat)
    requires j < |lessons|
    ensures lessons[..j + 1] == lessons[..j] + [lessons[j]]
  {
  }

  /** The first `c` colours and `j` more lessons. */
  ghost function Seen(colors: seq<seq<Id>>, c: nat, j: nat): seq<seq<Id>>
    requires c < |colors| && j <= |colors[c]|
  {
    colors[..c] + [colors[c][..j]]
  }

  lemma WholeClass(colors: seq<seq<Id>>, c: nat)
    requires c < |colors|
    ensures Seen(colors, c, |colors[c]|) == colors[..c + 1]
    ensures Seen(colors, c, 0) == colors[..c] + [[]]
  {
    assert colors[c][..|colors[c]|] == colors[c];
  }

  lemma OccurrencesNext(classes: seq<seq<Id>>, lessons: seq<Id>, next: Id, id: Id)
    ensures Occurrences(classes + [lessons + [next]], id) == Occurrences(classes + [lessons], id) + if id == next then 1 else 0
  {
    assert (classes + [lessons + [next]])[..|classes|] == classes == (classes + [lessons])[..|classes|];
    assert multiset(lessons + [next]) == multiset(lessons) + multiset{next};
  }

  lemma {:induction false} OccurrencesPrefix(colors: seq<seq<Id>>, c: nat, j: nat, id: Id)
    requires c < |colors| && j < |colors[c]| && colors[c][j] == id
    ensures Occurrences(Seen(colors, c, j), id) < Occurrences(colors, id)
  {
    var n := |colors| - 1;
    if c == n {
      assert (Seen(colors, c, j))[..c] == colors[..n];
      assert colors[c] == colors[c][..j] + [id] + colors[c][j + 1..];
      assert multiset(colors[c]) == multiset(colors[c][..j]) + multiset{id} + multiset(colors[c][j + 1..]);
    } else {
      OccurrencesPrefix(colors[..n], c, j, id);
      assert colors[..n][..c] == colors[..c];
    }
  }

  lemma AfterCounts(problem: Problem, b: Books<Id>, a: Assignment, cell: seq<Id>, mode: Mode, id: Id)
    requires |cell| == Weight(mode) && a.id != NO_ID
    ensures var after := After(problem, b, a, cell, mode);
            && Credit(after.placements, id) == Credit(b.placements, id) + (if id == a.id then Weight(mode) else 0)
            && DoubleCount(after.placements, id) == DoubleCount(b.placements, id)
               + (if id == a.id && (mode.Doubles? || (mode.PairedDemand? && Left(b.doubles, a.id) > 0)) then 1 else 0)
  {
    hide Credit, DoubleCount;
    if mode.Singles? {
      EntryBalance(problem, b, a, cell, false, id);
    } else if mode.Doubles? || Left(b.doubles, a.id) > 0 {
      EntryBalance(problem, b, a, cell, true, id);
    } else {
      EntryBalance(problem, b, a, cell[..1], false, id);
      EntryBalance(problem, Enter(b, LessonOf(problem, a, cell[..1], false), a.id), a, cell[1..], false, id);
    }
  }

  lemma AdvanceArithmetic(mode: Mode, a: Assignment, credit: nat, doubles: nat, done: nat, exact: bool, left: int)
    requires Advanced(mode, a, credit, doubles, done, exact) && left + doubles == a.doubles && done < Units(a, mode) && Fits(mode, a)
    ensures credit + Weight(mode) <= a.weekly && (mode.Doubles? ==> left > 0) && (mode.Singles? ==> left == 0)
    ensures Advanced(mode, a, credit + Weight(mode),
                     doubles + (if mode.Doubles? || (mode.PairedDemand? && left > 0) then 1 else 0), done + 1, exact)
    ensures !exact ==> Advanced(mode, a, credit, doubles, done + 1, exact)
  {
  }

  ghost predicate Settings(problem: Problem, assignments: map<Id, Assignment>, colors: seq<seq<Id>>, cells: seq<seq<Id>>, mode: Mode) {
    && Cellular(problem, cells, Weight(mode)) && |colors| <= |cells|
    && (forall lessons | lessons in colors :: Simultaneous(assignments, lessons))
    && (forall id | id in assignments :: Occurrences(colors, id) == Units(assignments[id], mode) && Fits(mode, assignments[id]))
    && forall id | id in assignments :: LocalTeacher(problem, assignments[id].teacher) && LocalCohort(problem, assignments[id].cohort)
  }

  /** The counts of the assignment that gets the unit. */
  lemma OwnCount(problem: Problem, b: Books<Id>, a: Assignment, cell: seq<Id>, mode: Mode, exact: bool, after: Books<Id>, done: nat, left: int)
    requires a.id != NO_ID && |cell| == Weight(mode) && done < Units(a, mode) && Fits(mode, a) && left == Left(b.doubles, a.id)
    requires left + DoubleCount(b.placements, a.id) == a.doubles
    requires Advanced(mode, a, Credit(b.placements, a.id), DoubleCount(b.placements, a.id), done, exact)
    requires after == After(problem, b, a, cell, mode) || (!exact && after == b)
    ensures Advanced(mode, a, Credit(after.placements, a.id), DoubleCount(after.placements, a.id), done + 1, exact)
    ensures Credit(b.placements, a.id) + Weight(mode) <= a.weekly && (mode.Doubles? ==> left > 0)
  {
    hide Credit, DoubleCount, Advanced, Units, Fits, After;
    AfterCounts(problem, b, a, cell, mode, a.id);
    AdvanceArithmetic(mode, a, Credit(b.placements, a.id), DoubleCount(b.placements, a.id), done, exact, left);
  }

  lemma UnitCounts(problem: Problem, b: Books<Id>, colors: seq<seq<Id>>, c: nat, j: nat, cell: seq<Id>, mode: Mode, exact: bool, after: Books<Id>, i: Id)
    requires Balanced(Schedule(problem), b) && i in Schedule(problem) && WellFormed(problem)
    requires c < |colors| && j < |colors[c]| && colors[c][j] in Schedule(problem) && |cell| == Weight(mode)
    requires Occurrences(colors, i) == Units(Schedule(problem)[i], mode) && Fits(mode, Schedule(problem)[i])
    requires Advanced(mode, Schedule(problem)[i], Credit(b.placements, i), DoubleCount(b.placements, i),
                      Occurrences(Seen(colors, c, j), i), exact)
    requires after == After(problem, b, Schedule(problem)[colors[c][j]], cell, mode) || (!exact && after == b)
    ensures Advanced(mode, Schedule(problem)[i], Credit(after.placements, i), DoubleCount(after.placements, i),
                     Occurrences(Seen(colors, c, j + 1), i), exact)
    ensures i == colors[c][j] ==> UnitOwed(b, Schedule(problem)[i], mode)
  {
    hide Compatible, Schedule, WellFormed, Credit, DoubleCount, Occurrences, Advanced, Units, Fits, After;
    ScheduleEntries(problem);
    OneMore(colors[c], j);
    OccurrencesNext(colors[..c], colors[c][..j], colors[c][j], i);
    if i == colors[c][j] {
      OccurrencesPrefix(colors, c, j, i);
      OwnCount(problem, b, Schedule(problem)[i], cell, mode, exact, after, Occurrences(Seen(colors, c, j), i), b.doubles[i]);
    } else {
      AfterCounts(problem, b, Schedule(problem)[colors[c][j]], cell, mode, i);
    }
  }

  lemma UnitInClass(problem: Problem, b: Books<Id>, colors: seq<seq<Id>>, c: nat, j: nat, a: Assignment, cells: seq<seq<Id>>, mode: Mode, after: Books<Id>)
    requires c < |colors| <= |cells| && j < |colors[c]| && colors[c][j] == a.id && |cells[c]| == Weight(mode)
    requires forall p | p in b.placements :: InSomeClass(cells, Seen(colors, c, j), p)
    requires after == After(problem, b, a, cells[c], mode) || after == b
    ensures forall p | p in after.placements :: InSomeClass(cells, Seen(colors, c, j + 1), p)
  {
    var classes, classes' := Seen(colors, c, j), Seen(colors, c, j + 1);
    forall p | p in after.placements
      ensures InSomeClass(cells, classes', p)
    {
      if p in b.placements {
        var d :| InClass(cells, classes, p, d);
        assert InClass(cells, classes', p, d);
      } else {
        assert p.assignment == a.id && forall per | per in p.periods :: per in cells[c];
        assert InClass(cells, classes', p, c);
      }
    }
  }

  /** One more unit: the books after it, whether or not it could be placed. */
  lemma UnitAdvances(problem: Problem, b: Books<Id>, colors: seq<seq<Id>>, c: nat, j: nat, cells: seq<seq<Id>>, mode: Mode, exact: bool, after: Books<Id>)
    requires WellFormed(problem) && Kept(problem, b) && Settings(problem, Schedule(problem), colors, cells, mode)
    requires c < |colors| && j < |colors[c]| && colors[c][j] in Schedule(problem) && |cells[c]| == Weight(mode)
    requires Underway(Schedule(problem), Seen(colors, c, j), cells, mode, b, exact)
    requires var a := Schedule(problem)[colors[c][j]];
             after == After(problem, b, a, cells[c], mode) || (!exact && after == b)
    ensures Underway(Schedule(problem), Seen(colors, c, j + 1), cells, mode, after, exact)
  {
    hide Compatible, Schedule, WellFormed, Cellular, Simultaneous, Credit, DoubleCount, Occurrences, Advanced, Units, Fits, InSomeClass, After, Balanced;
    ScheduleEntries(problem);
    UnitInClass(problem, b, colors, c, j, Schedule(problem)[colors[c][j]], cells, mode, after);
    forall i | i in Schedule(problem)
      ensures Advanced(mode, Schedule(problem)[i], Credit(after.placements, i), DoubleCount(after.placements, i),
                       Occurrences(Seen(colors, c, j + 1), i), exact)
    {
      UnitCounts(problem, b, colors, c, j, cells[c], mode, exact, after, i);
    }
  }

  lemma UnitIsOwed(problem: Problem, b: Books<Id>, colors: seq<seq<Id>>, c: nat, j: nat, cells: seq<seq<Id>>, mode: Mode, exact: bool)
    requires WellFormed(problem) && Kept(problem, b) && Settings(problem, Schedule(problem), colors, cells, mode)
    requires c < |colors| && j < |colors[c]| && colors[c][j] in Schedule(problem)
    requires Underway(Schedule(problem), Seen(colors, c, j), cells, mode, b, exact)
    ensures IsCell(problem, cells[c], Weight(mode)) && UnitOwed(b, Schedule(problem)[colors[c][j]], mode)
  {
    assert cells[c] in cells;
    hide Compatible, Schedule, WellFormed, Simultaneous, Credit, DoubleCount, Occurrences, Advanced, Units, Fits, InSomeClass, After, Balanced;
    UnitCounts(problem, b, colors, c, j, cells[c], mode, exact, After(problem, b, Schedule(problem)[colors[c][j]], cells[c], mode), colors[c][j]);
  }

  lemma SettingsFacts(problem: Problem, assignments: map<Id, Assignment>, colors: seq<seq<Id>>, cells: seq<seq<Id>>, mode: Mode, c: nat, j: nat)
    requires Settings(problem, assignments, colors, cells, mode) && c < |colors| && j < |colors[c]|
    ensures Cellular(problem, cells, Weight(mode)) && |colors| <= |cells|
    ensures Simultaneous(assignments, colors[c][..j] + [colors[c][j]]) && colors[c][j] in assignments
    ensures LocalTeacher(problem, assignments[colors[c][j]].teacher) && LocalCohort(problem, assignments[colors[c][j]].cohort)
    ensures IsCell(problem, cells[c], Weight(mode))
  {
    hide Occurrences, Units, Fits, LocalTeacher, LocalCohort, IsCell;
    assert colors[c] in colors && Simultaneous(assignments, colors[c]);
    assert colors[c][j] in colors[c] && cells[c] in cells;
  }

  lemma UnderwayFacts(assignments: map<Id, Assignment>, colors: seq<seq<Id>>, c: nat, j: nat, cells: seq<seq<Id>>, mode: Mode, b: Books<Id>, exact: bool)
    requires c < |colors| && j <= |colors[c]| && Underway(assignments, Seen(colors, c, j), cells, mode, b, exact)
    ensures forall p | p in b.placements :: InSomeClass(cells, Seen(colors, c, j), p)
    ensures |Seen(colors, c, j)| == c + 1 && Seen(colors, c, j)[c] == colors[c][..j]
  {
    hide AllAdvanced, InSomeClass;
  }

  /** Where nothing restricts the assignments, the cell of the colour is free. */
  lemma UnitFits(problem: Problem, o: Occupancy, b: Books<Id>, colors: seq<seq<Id>>, c: nat, j: nat, cells: seq<seq<Id>>, mode: Mode)
    requires WellFormed(problem) && Mirrors(o, b.placements) && Kept(problem, b) && Settings(problem, Schedule(problem), colors, cells, mode)
    requires c < |colors| && j < |colors[c]| && colors[c][j] in Schedule(problem) && Unrestricted(problem)
    requires Underway(Schedule(problem), Seen(colors, c, j), cells, mode, b, true)
    ensures CanPlace(problem, o, Schedule(problem)[colors[c][j]], cells[c])
  {
    hide Kept, Mirrors, Schedule, WellFormed, InSomeClass, Cellular, Occurrences, CanPlace, AllAdvanced, Unhindered, Fits, Units, Settings,
         Underway, Seen, Simultaneous, LocalTeacher, LocalCohort, IsCell;
    SettingsFacts(problem, Schedule(problem), colors, cells, mode, c, j);
    ScheduleEntries(problem);
    OneMore(colors[c], j);
    UnderwayFacts(Schedule(problem), colors, c, j, cells, mode, b, true);
    assert Unhindered(problem, Schedule(problem)[colors[c][j]]) by {
    }
    CellIsFree(problem, o, b, Seen(colors, c, j), colors[c][..j], cells, Weight(mode), colors[c][j]);
  }

  lemma AfterShrinks(problem: Problem, b: Books<Id>, a: Assignment, cell: seq<Id>, mode: Mode)
    requires |cell| == Weight(mode) && a.id in b.remaining && a.id in b.doubles
    ensures Shrinks(b, After(problem, b, a, cell, mode))
  {
  }

  /** The lessons of one colour. */
  method PlaceClass(problem: Problem, state: State<Id>, assignments: map<Id, Assignment>, colors: seq<seq<Id>>, c: nat, cells: seq<seq<Id>>,
                    mode: Mode)
    requires WellFormed(problem) && assignments == Schedule(problem) && InOrder(problem, state) && c < |colors|
    requires Settings(problem, assignments, colors, cells, mode)
    requires Underway(assignments, colors[..c] + [[]], cells, mode, state.books, Unrestricted(problem))
    modifies state`books, state`occupancy
    ensures InOrder(problem, state) && Shrinks(old(state.books), state.books)
    ensures Underway(assignments, colors[..c + 1], cells, mode, state.books, Unrestricted(problem))
  {
    hide *;
    WholeClass(colors, c);
    ShrinksNot(state.books);
    for j := 0 to |colors[c]|
      invariant InOrder(problem, state) && Shrinks(old(state.books), state.books)
      invariant Underway(assignments, Seen(colors, c, j), cells, mode, state.books, Unrestricted(problem))
    {
      ghost var before := state.books;
      PlaceNext(problem, state, assignments, colors, c, j, cells, mode);
      ShrinksFurther(old(state.books), before, state.books);
    }
  }

  method PlaceNext(problem: Problem, state: State<Id>, assignments: map<Id, Assignment>, colors: seq<seq<Id>>, c: nat, j: nat, cells: seq<seq<Id>>,
                   mode: Mode)
    requires WellFormed(problem) && assignments == Schedule(problem) && InOrder(problem, state) && c < |colors| && j < |colors[c]|
    requires Settings(problem, assignments, colors, cells, mode)
    requires Underway(assignments, Seen(colors, c, j), cells, mode, state.books, Unrestricted(problem))
    modifies state`books, state`occupancy
    ensures InOrder(problem, state) && Shrinks(old(state.books), state.books)
    ensures Underway(assignments, Seen(colors, c, j + 1), cells, mode, state.books, Unrestricted(problem))
  {
    ScheduleEntries(problem);
    assert colors[c] in colors;
    assert Simultaneous(assignments, colors[c]);
    hide Compatible, WellFormed, Schedule, Underway, Mirrors, CanPlace, After, Unrestricted, IsCell, UnitOwed;
    ghost var before := state.books;
    var a := assignments[colors[c][j]];
    UnitIsOwed(problem, before, colors, c, j, cells, mode, Unrestricted(problem));
    if Unrestricted(problem) {
      UnitFits(problem, state.occupancy, before, colors, c, j, cells, mode);
    }
    PlaceUnit(problem, state, a, cells[c], mode);
    UnitAdvances(problem, before, colors, c, j, cells, mode, Unrestricted(problem), state.books);
    AfterShrinks(problem, before, a, cells[c], mode);
  }

  // ----- a whole phase

  lemma NothingDone(assignments: map<Id, Assignment>, cells: seq<seq<Id>>, mode: Mode, b: Books<Id>, exact: bool)
    requires b.placements == []
    ensures Underway(assignments, [], cells, mode, b, exact)
  {
  }

  lemma NextClass(assignments: map<Id, Assignment>, classes: seq<seq<Id>>, cells: seq<seq<Id>>, mode: Mode, b: Books<Id>, exact: bool)
    requires Underway(assignments, classes, cells, mode, b, exact)
    ensures Underway(assignments, classes + [[]], cells, mode, b, exact)
  {
    hide Advanced;
    assert (classes + [[]])[..|classes|] == classes;
    forall p | p in b.placements
      ensures InSomeClass(cells, classes + [[]], p)
    {
      var d :| InClass(cells, classes, p, d);
      assert InClass(cells, classes + [[]], p, d);
    }
  }

  lemma AdvancedBalance(mode: Mode, a: Assignment, credit: nat, doubles: nat, done: nat, exact: bool)
    requires Advanced(mode, a, credit, doubles, done, exact) && Fits(mode, a) && a.doubles * 2 <= a.weekly && done == Units(a, mode)
    ensures a.weekly - credit >= 2 * (a.doubles - doubles)
    ensures exact ==> credit == a.weekly && doubles == a.doubles
  {
  }

  /** A phase leaves room for the doubles that are still to come, and nothing at all if every unit was placed. */
  lemma PhaseBalance(problem: Problem, b: Books<Id>, colors: seq<seq<Id>>, cells: seq<seq<Id>>, mode: Mode, exact: bool)
    requires WellFormed(problem) && Preflight.Feasible(problem) && Balanced(Schedule(problem), b)
    requires Settings(problem, Schedule(problem), colors, cells, mode) && Underway(Schedule(problem), colors, cells, mode, b, exact)
    ensures Reserved(b) && (exact ==> Finished(b))
  {
    hide Schedule, WellFormed, Preflight.Feasible, Credit, DoubleCount, Advanced, Fits, InSomeClass, Units, Occurrences, Cellular, Simultaneous;
    ScheduleEntries(problem);
    forall id | id in Schedule(problem)
      ensures b.remaining[id] >= 2 * b.doubles[id]
      ensures exact ==> b.remaining[id] == 0 && b.doubles[id] == 0
    {
      Agreement.FeasibleAssignment(problem, Schedule(problem)[id]);
      AdvancedBalance(mode, Schedule(problem)[id], Credit(b.placements, id), DoubleCount(b.placements, id), Occurrences(colors, id), exact);
    }
  }

  /** No teacher and no cohort has more than `count` units of demand. */
  ghost predicate Enough(problem: Problem, mode: Mode, count: int) {
    count >= 0 && forall side: Side, key: Id :: Load(OnlySchedulable(problem, problem.assignments), side, key, mode) <= count
  }

  lemma {:induction false} LoadIsWithin(list: seq<Assignment>, side: Side, key: Id, mode: Mode)
    requires forall a | a in list :: 0 <= Units(a, mode) <= a.weekly
    ensures Load(list, side, key, mode) <= WeeklyTotal(list) && WeeklyTotal(list) >= 0
  {
    hide Units;
    if list != [] {
      assert list[|list| - 1] in list;
      LoadIsWithin(list[..|list| - 1], side, key, mode);
    }
  }

  /** Nobody has more units than there are periods to schedule. */
  lemma DemandIsEnough(problem: Problem, mode: Mode)
    requires WellFormed(problem) && Preflight.Feasible(problem)
    ensures Enough(problem, mode, Demanded(problem))
  {
    OnlySchedulableElements(problem, problem.assignments);
    ScheduleEntries(problem);
    hide Schedule, Preflight.Feasible, WellFormed;
    var list := OnlySchedulable(problem, problem.assignments);
    forall a | a in list
      ensures 0 <= Units(a, mode) <= a.weekly
    {
      Agreement.FeasibleAssignment(problem, a);
    }
    hide OnlySchedulable;
    LoadIsWithin(list, TeacherSide, NO_ID, mode);
    forall side: Side, key: Id
      ensures Load(list, side, key, mode) <= WeeklyTotal(list)
    {
      LoadIsWithin(list, side, key, mode);
    }
  }

  lemma ColoringInput(problem: Problem, mode: Mode)
    requires WellFormed(problem) && Preflight.Feasible(problem)
    requires forall id | id in Schedule(problem) :: Fits(mode, Schedule(problem)[id])
    ensures Enumerates(Schedule(problem), OnlySchedulable(problem, problem.assignments))
    ensures forall a | a in OnlySchedulable(problem, problem.assignments) :: Colorable(problem, a, mode)
    ensures forall id | id in Schedule(problem) :: LocalTeacher(problem, Schedule(problem)[id].teacher) && LocalCohort(problem, Schedule(problem)[id].cohort)
  {
    OnlySchedulableElements(problem, problem.assignments);
    OnlySchedulableDistinct(problem, problem.assignments);
    ScheduleEntries(problem);
    hide Schedule, Preflight.Feasible;
    forall a | a in OnlySchedulable(problem, problem.assignments)
      ensures Colorable(problem, a, mode)
    {
      Agreement.FeasibleAssignment(problem, a);
    }
  }

  lemma ExactFits(assignments: map<Id, Assignment>, b: Books<Id>, mode: Mode)
    requires CanUseExactColoring(assignments, b, mode)
    ensures b.placements == [] && forall id | id in assignments :: Fits(mode, assignments[id])
  {
  }

  lemma SettingsHold(problem: Problem, assignments: map<Id, Assignment>, colors: seq<seq<Id>>, cells: seq<seq<Id>>, mode: Mode)
    requires Cellular(problem, cells, Weight(mode)) && |colors| <= |cells|
    requires forall lessons | lessons in colors :: Simultaneous(assignments, lessons)
    requires forall id | id in assignments :: Fits(mode, assignments[id])
    requires forall id | id in assignments :: Occurrences(colors, id) == Units(assignments[id], mode)
    requires forall id | id in assignments :: LocalTeacher(problem, assignments[id].teacher) && LocalCohort(problem, assignments[id].cohort)
    ensures Settings(problem, assignments, colors, cells, mode)
  {
    hide Cellular, Simultaneous, Fits, Occurrences, Units, LocalTeacher, LocalCohort;
  }

  method PlaceClasses(problem: Problem, state: State<Id>, assignments: map<Id, Assignment>, colors: seq<seq<Id>>, cells: seq<seq<Id>>, mode: Mode)
    requires WellFormed(problem) && assignments == Schedule(problem) && InOrder(problem, state) && state.books.placements == []
    requires Settings(problem, assignments, colors, cells, mode) && Preflight.Feasible(problem)
    modifies state`books, state`occupancy
    ensures InOrder(problem, state) && Shrinks(old(state.books), state.books)
    ensures Reserved(state.books) && (Unrestricted(problem) ==> Finished(state.books))
  {
    NothingDone(assignments, cells, mode, state.books, Unrestricted(problem));
    ShrinksNot(state.books);
    hide *;
    assert colors[..0] == [];
    for c := 0 to |colors|
      invariant InOrder(problem, state) && Shrinks(old(state.books), state.books)
      invariant Underway(assignments, colors[..c], cells, mode, state.books, Unrestricted(problem))
    {
      ghost var before := state.books;
      NextClass(assignments, colors[..c], cells, mode, before, Unrestricted(problem));
      PlaceClass(problem, state, assignments, colors, c, cells, mode);
      ShrinksFurther(old(state.books), before, state.books);
    }
    assert colors[..|colors|] == colors;
    OrderlyBooks(problem, state);
    PhaseBalance(problem, state.books, colors, cells, mode, Unrestricted(problem));
  }

  lemma OrderlyBooks(problem: Problem, state: State<Id>)
    requires InOrder(problem, state)
    ensures Balanced(Schedule(problem), state.books) && Kept(problem, state.books)
  {
  }

  lemma ColorCount(problem: Problem, mode: Mode, delta: nat, count: int)
    requires IsLargestLoad(OnlySchedulable(problem, problem.assignments), mode, delta) && Enough(problem, mode, count)
    ensures delta <= count
  {
    hide Load, OnlySchedulable;
  }

  lemma UntouchedIsReserved(problem: Problem, b: Books<Id>)
    requires WellFormed(problem) && Preflight.Feasible(problem) && Kept(problem, b) && b.placements == []
    ensures Reserved(b)
  {
    ScheduleEntries(problem);
    hide Schedule, WellFormed, Preflight.Feasible, Compatible;
    forall id | id in Schedule(problem)
      ensures b.remaining[id] >= 2 * b.doubles[id]
    {
      Agreement.FeasibleAssignment(problem, Schedule(problem)[id]);
    }
  }

  /** One colouring phase: it finishes the timetable when nothing restricts the assignments and there are enough cells
      for the busiest teacher and the busiest cohort. */
  method RunColoring(problem: Problem, state: State<Id>, assignments: map<Id, Assignment>, cells: seq<seq<Id>>, mode: Mode, config: Config)
    returns (stop: bool)
    requires WellFormed(problem) && Preflight.Feasible(problem) && assignments == Schedule(problem) && InOrder(problem, state)
    requires CanUseExactColoring(assignments, state.books, mode) && Cellular(problem, cells, Weight(mode))
    modifies state
    ensures InOrder(problem, state) && Shrinks(old(state.books), state.books) && Reserved(state.books)
    ensures state.timedOut == (old(state.timedOut) || stop)
    ensures !stop && Unrestricted(problem) && Enough(problem, mode, |cells|) ==> Finished(state.books)
    ensures config.timeless && Enough(problem, mode, config.iterationBudget - 1 - old(state.iterations)) ==> !stop
    ensures Enough(problem, mode, 0) ==> state.iterations == old(state.iterations)
    ensures !stop ==> state.iterations < config.iterationBudget
    ensures old(state.iterations) <= state.iterations <= old(state.iterations) + Demanded(problem)
    ensures stop && config.timeless ==> state.iterations >= config.iterationBudget
  {
    hide *;
    ExactFits(assignments, state.books, mode);
    ColoringInput(problem, mode);
    OrderlyBooks(problem, state);
    UntouchedIsReserved(problem, state.books);
    ShrinksNot(state.books);
    var colors := ExactBipartiteColors(problem, assignments, mode, OnlySchedulable(problem, problem.assignments));
    stop := BudgetExceeded(state, |colors|, config);
    if Enough(problem, mode, config.iterationBudget - 1 - old(state.iterations)) {
      ColorCount(problem, mode, |colors|, config.iterationBudget - 1 - old(state.iterations));
    }
    DemandIsEnough(problem, mode);
    ColorCount(problem, mode, |colors|, Demanded(problem));
    if Enough(problem, mode, 0) {
      ColorCount(problem, mode, |colors|, 0);
    }
    if Enough(problem, mode, |cells|) {
      ColorCount(problem, mode, |colors|, |cells|);
    }
    if !stop && |colors| <= |cells| {
      SettingsHold(problem, assignments, colors, cells, mode);
      PlaceClasses(problem, state, assignments, colors, cells, mode);
    }
  }
}

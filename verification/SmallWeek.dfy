/** A week of two adjoining periods, for small examples. */
module SmallWeek {
  import opened Model
  import opened Lessons

  const MORNING: Period := Period(1, 0, 0, true, true, false)
  const NOON: Period := Period(2, 0, 1, true, true, false)

  lemma OnlyUsableHere()
    ensures OnlyUsable([MORNING, NOON]) == [MORNING, NOON]
  {
    var list := [MORNING, NOON];
    assert list[..1] == [MORNING] && list[..1][..0] == [];
    assert OnlyUsable([MORNING]) == [MORNING];
  }

  lemma SameSize(s: seq<Period>)
    ensures |SortPeriods(s)| == |s|
  {
    assert |multiset(SortPeriods(s))| == |SortPeriods(s)| && |multiset(s)| == |s|;
  }

  /** Both periods are usable, and there are no others. */
  lemma TheWeek(problem: Problem)
    requires problem.periods == [MORNING, NOON]
    ensures |UsablePeriods(problem)| == 2 && AvailableCount(UsablePeriods(problem), {}) == 2
    ensures forall p :: p in UsablePeriods(problem) <==> p == MORNING || p == NOON
    ensures PeriodById(problem.periods) == map[1 := MORNING, 2 := NOON]
  {
    OnlyUsableHere();
    SameSize([MORNING, NOON]);
    AllAvailable(UsablePeriods(problem));
    UsablePeriodsElements(problem);
    ByName();
    hide OnlyUsable, SortPeriods, PeriodById, AvailableCount;
  }

  lemma ByName()
    ensures PeriodById([MORNING, NOON]) == map[1 := MORNING, 2 := NOON]
  {
    var list := [MORNING, NOON];
    assert list[..1] == [MORNING] && list[..1][..0] == [];
    assert PeriodById([MORNING]) == map[1 := MORNING];
  }

  /** A single identifier is its own list. */
  lemma Single(x: Id)
    requires x != NO_ID
    ensures UniqueIds([x]) == [x]
  {
    var r := UniqueIds([x]);
    assert x in [x] && x in r;
    hide UniqueIds;
    assert |r| > 1 ==> r[0] != r[1];
    forall i | 0 <= i < |r|
      ensures r[i] == x
    {
      assert r[i] in r;
    }
  }
}

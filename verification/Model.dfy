/** The scheduling problem and its lessons: the values of `engine_model.go`. */
module Model {

  /** An identifier; `NO_ID` is the empty string. */
  type Id = nat

  const NO_ID: Id := 0

  datatype Period = Period(id: Id, day: int, index: int, teaching: bool, mandatory: bool, excluded: bool)

  datatype Teacher = Teacher(id: Id, workspace: Id, workloadLimit: int, unavailable: set<Id>, qualified: set<Id>)

  datatype Cohort = Cohort(id: Id, workspace: Id, unavailable: set<Id>)

  datatype Learner = Learner(id: Id, workspace: Id, cohort: Id, active: bool)

  datatype Resource = Resource(id: Id, workspace: Id, capacity: int, unavailable: set<Id>)

  /** A cohort subject taught by one teacher; `doubles` blocks use two of the `weekly` periods each. */
  datatype Assignment = Assignment(id: Id, workspace: Id, year: Id, term: Id, teacher: Id, cohort: Id,
                                   cohortSubject: Id, subject: Id, resource: Id, weekly: int, doubles: nat,
                                   mandatory: bool, active: bool)

  /** An audience taught together: several assignments, or part of a cohort. */
  datatype Group = Group(id: Id, workspace: Id, teacher: Id, subject: Id, assignments: seq<Id>, cohorts: seq<Id>,
                         learners: seq<Id>, resource: Id, weekly: int, doubles: nat, mandatory: bool, active: bool)

  datatype Block = Block(id: Id, workspace: Id, groups: seq<Id>, active: bool)

  /** A scheduled lesson. */
  datatype Placement = Placement(assignment: Id, assignments: seq<Id>, group: Id, block: Id, workspace: Id, year: Id,
                                 term: Id, teacher: Id, cohort: Id, cohorts: seq<Id>, cohortSubject: Id, subject: Id,
                                 learners: seq<Id>, resource: Id, periods: seq<Id>, double: bool)

  datatype Problem = Problem(workspace: Id, year: Id, term: Id, periods: seq<Period>, teachers: map<Id, Teacher>,
                             cohorts: map<Id, Cohort>, learners: map<Id, Learner>, resources: map<Id, Resource>,
                             assignments: seq<Assignment>, groups: seq<Group>, blocks: seq<Block>,
                             registrations: set<(Id, Id)>, fullCoverage: bool, existing: seq<Placement>)

  /** The two ends of an assignment in the teacher-to-cohort multigraph. */
  datatype Side = TeacherSide | CohortSide

  function End(side: Side, a: Assignment): Id {
    if side.TeacherSide? then a.teacher else a.cohort
  }

  predicate Schedulable(problem: Problem, a: Assignment) {
    a.active && a.workspace == problem.workspace && a.weekly > 0
  }

  ghost predicate DistinctIds(list: seq<Assignment>) {
    forall i, j | 0 <= i < j < |list| :: list[i].id != list[j].id
  }

  // ----- usable periods

  /** The order of the school week. */
  predicate NoLater(a: Period, b: Period) {
    a.day < b.day || (a.day == b.day && a.index <= b.index)
  }

  predicate Usable(p: Period) {
    p.teaching && !p.excluded
  }

  function InsertPeriod(p: Period, s: seq<Period>): (r: seq<Period>)
    ensures multiset(r) == multiset{p} + multiset(s)
  {
    if s == [] || NoLater(p, s[0]) then [p] + s
    else
      assert s == [s[0]] + s[1..];
      [s[0]] + InsertPeriod(p, s[1..])
  }

  /** The library's sort by day, then index. */
  function SortPeriods(s: seq<Period>): (r: seq<Period>)
    ensures multiset(r) == multiset(s)
  {
    if s == [] then []
    else
      assert s == s[..|s| - 1] + [s[|s| - 1]];
      InsertPeriod(s[|s| - 1], SortPeriods(s[..|s| - 1]))
  }

  function OnlyUsable(s: seq<Period>): seq<Period> {
    if s == [] then []
    else OnlyUsable(s[..|s| - 1]) + if Usable(s[|s| - 1]) then [s[|s| - 1]] else []
  }

  /** The teaching periods that are not excluded, in the order of the week. */
  function UsablePeriods(problem: Problem): seq<Period> {
    SortPeriods(OnlyUsable(problem.periods))
  }

  method ComputeUsablePeriods(problem: Problem) returns (periods: seq<Period>)
    ensures periods == UsablePeriods(problem)
  {
    periods := [];
    for i := 0 to |problem.periods|
      invariant periods == OnlyUsable(problem.periods[..i])
    {
      assert problem.periods[..i + 1][..i] == problem.periods[..i];
      if Usable(problem.periods[i]) {
        periods := periods + [problem.periods[i]];
      }
    }
    assert problem.periods[..|problem.periods|] == problem.periods;
    periods := SortPeriods(periods);
  }

  ghost predicate InWeekOrder(s: seq<Period>) {
    forall i, j | 0 <= i < j < |s| :: NoLater(s[i], s[j])
  }

  lemma {:induction false} InsertPeriodOrder(p: Period, s: seq<Period>)
    requires InWeekOrder(s)
    ensures InWeekOrder(InsertPeriod(p, s))
  {
    if s != [] && !NoLater(p, s[0]) {
      var rest := InsertPeriod(p, s[1..]);
      InsertPeriodOrder(p, s[1..]);
      forall q | q in rest
        ensures NoLater(s[0], q)
      {
        assert q in multiset(rest);
        assert q == p || q in s[1..];
      }
      assert forall j | 0 <= j < |rest| :: rest[j] in rest;
    }
  }

  lemma {:induction false} SortPeriodsOrder(s: seq<Period>)
    ensures InWeekOrder(SortPeriods(s))
  {
    if s != [] {
      SortPeriodsOrder(s[..|s| - 1]);
      InsertPeriodOrder(s[|s| - 1], SortPeriods(s[..|s| - 1]));
    }
  }

  lemma {:induction false} OnlyUsableElements(s: seq<Period>)
    ensures forall p :: p in OnlyUsable(s) <==> p in s && Usable(p)
    ensures Distinct(s) ==> Distinct(OnlyUsable(s))
  {
    if s != [] {
      OnlyUsableElements(s[..|s| - 1]);
      assert s == s[..|s| - 1] + [s[|s| - 1]];
    }
  }

  /** The usable periods are exactly the usable ones of the calendar, in the order of the week. */
  lemma UsablePeriodsElements(problem: Problem)
    ensures forall p :: p in UsablePeriods(problem) <==> p in problem.periods && Usable(p)
    ensures InWeekOrder(UsablePeriods(problem))
    ensures Distinct(problem.periods) ==> Distinct(UsablePeriods(problem))
  {
    OnlyUsableElements(problem.periods);
    SortPeriodsOrder(OnlyUsable(problem.periods));
    SameElements(OnlyUsable(problem.periods), UsablePeriods(problem));
    if Distinct(problem.periods) {
      DistinctPermutation(OnlyUsable(problem.periods), UsablePeriods(problem));
    }
  }

  // ----- look-ups; a later entry with the same identifier replaces an earlier one

  function PeriodById(s: seq<Period>): map<Id, Period> {
    if s == [] then map[] else PeriodById(s[..|s| - 1])[s[|s| - 1].id := s[|s| - 1]]
  }

  function AssignmentById(s: seq<Assignment>): map<Id, Assignment> {
    if s == [] then map[] else AssignmentById(s[..|s| - 1])[s[|s| - 1].id := s[|s| - 1]]
  }

  lemma {:induction false} PeriodByIdEntries(s: seq<Period>)
    ensures forall id | id in PeriodById(s) :: PeriodById(s)[id].id == id && PeriodById(s)[id] in s
    ensures forall p | p in s :: p.id in PeriodById(s)
    ensures (forall i, j | 0 <= i < j < |s| :: s[i].id != s[j].id) ==> forall p | p in s :: PeriodById(s)[p.id] == p
  {
    if s != [] {
      var rest, last := s[..|s| - 1], s[|s| - 1];
      PeriodByIdEntries(rest);
      assert s == rest + [last];
      assert forall p | p in rest :: exists i :: 0 <= i < |rest| && s[i] == p;
    }
  }

  lemma {:induction false} AssignmentByIdEntries(s: seq<Assignment>)
    ensures forall id | id in AssignmentById(s) :: AssignmentById(s)[id].id == id && AssignmentById(s)[id] in s
    ensures forall a | a in s :: a.id in AssignmentById(s)
    ensures DistinctIds(s) ==> forall a | a in s :: AssignmentById(s)[a.id] == a
  {
    if s != [] {
      var rest, last := s[..|s| - 1], s[|s| - 1];
      AssignmentByIdEntries(rest);
      assert s == rest + [last];
      assert forall a | a in rest :: exists i :: 0 <= i < |rest| && s[i] == a;
    }
  }

  // ----- who and what is available

  predicate LocalTeacher(problem: Problem, id: Id) {
    id in problem.teachers && problem.teachers[id].workspace == problem.workspace
  }

  predicate LocalCohort(problem: Problem, id: Id) {
    id in problem.cohorts && problem.cohorts[id].workspace == problem.workspace
  }

  predicate LocalLearner(problem: Problem, l: Id) {
    l in problem.learners && problem.learners[l].workspace == problem.workspace && problem.learners[l].active
  }

  predicate ActiveBlock(problem: Problem, b: Block) {
    b.active && b.workspace == problem.workspace
  }

  predicate CohortBlocked(problem: Problem, cohort: Id, per: Id) {
    cohort in problem.cohorts && per in problem.cohorts[cohort].unavailable
  }

  predicate TeacherBlocked(problem: Problem, teacher: Id, per: Id) {
    teacher in problem.teachers && per in problem.teachers[teacher].unavailable
  }

  predicate OpenResource(problem: Problem, resource: Id, per: Id) {
    resource in problem.resources
    && problem.resources[resource].workspace == problem.workspace
    && per !in problem.resources[resource].unavailable
  }

  function Capacity(problem: Problem, resource: Id): int {
    if resource in problem.resources && problem.resources[resource].capacity > 0 then problem.resources[resource].capacity else 1
  }

  /** How many of the periods are not in `unavailable`. */
  function AvailableCount(periods: seq<Period>, unavailable: set<Id>): nat {
    if periods == [] then 0
    else AvailableCount(periods[..|periods| - 1], unavailable) + if periods[|periods| - 1].id in unavailable then 0 else 1
  }

  lemma {:induction false} AvailableAtMostAll(periods: seq<Period>, unavailable: set<Id>)
    ensures AvailableCount(periods, unavailable) <= |periods|
  {
    if periods != [] {
      AvailableAtMostAll(periods[..|periods| - 1], unavailable);
    }
  }

  lemma {:induction false} AllAvailable(periods: seq<Period>)
    ensures AvailableCount(periods, {}) == |periods|
  {
    if periods != [] {
      AllAvailable(periods[..|periods| - 1]);
    }
  }

  function WorkloadCap(problem: Problem, t: Teacher): int {
    var available := AvailableCount(UsablePeriods(problem), t.unavailable);
    if 0 < t.workloadLimit < available then t.workloadLimit else available
  }

  method CountAvailable(periods: seq<Period>, unavailable: set<Id>) returns (available: nat)
    ensures available == AvailableCount(periods, unavailable)
  {
    available := 0;
    for k := 0 to |periods|
      invariant available == AvailableCount(periods[..k], unavailable)
    {
      assert periods[..k + 1][..k] == periods[..k];
      if periods[k].id !in unavailable {
        available := available + 1;
      }
    }
    assert periods[..|periods|] == periods;
  }

  // ----- library operations

  /** Any order of the same elements: the effect of shuffling, and of ranging over a map. */
  method Shuffle<T>(s: seq<T>) returns (r: seq<T>)
    ensures multiset(r) == multiset(s)
  {
    r := s;
    for i := 0 to |s|
      invariant |r| == |s| && multiset(r) == multiset(s)
    {
      var j :| i <= j < |r|;
      r := r[i := r[j]][j := r[i]];
    }
  }

  /** The keys of a map, in no particular order. */
  method KeysInSomeOrder<V>(m: map<Id, V>) returns (keys: seq<Id>)
    ensures forall k :: k in keys <==> k in m
    ensures Distinct(keys)
  {
    keys := [];
    var rest := m.Keys;
    while rest != {}
      invariant rest <= m.Keys
      invariant forall k :: k in keys <==> k in m && k !in rest
      invariant Distinct(keys)
    {
      var k :| k in rest;
      keys, rest := keys + [k], rest - {k};
    }
  }

  ghost predicate Ascending(s: seq<Id>) {
    forall i, j | 0 <= i < j < |s| :: s[i] <= s[j]
  }

  function InsertId(x: Id, s: seq<Id>): (r: seq<Id>)
    ensures multiset(r) == multiset{x} + multiset(s)
  {
    if s == [] || x <= s[0] then [x] + s
    else
      assert s == [s[0]] + s[1..];
      [s[0]] + InsertId(x, s[1..])
  }

  lemma {:induction false} InsertIdAscends(x: Id, s: seq<Id>)
    requires Ascending(s)
    ensures Ascending(InsertId(x, s))
  {
    if s != [] && x > s[0] {
      var rest := InsertId(x, s[1..]);
      InsertIdAscends(x, s[1..]);
      forall y | y in rest
        ensures s[0] <= y
      {
        assert y in multiset(rest);
        assert y == x || y in s[1..];
      }
      ConsAscends(s[0], rest);
    }
  }

  lemma ConsAscends(x: Id, s: seq<Id>)
    requires Ascending(s) && forall y | y in s :: x <= y
    ensures Ascending([x] + s)
  {
    var t := [x] + s;
    forall i, j | 0 <= i < j < |t|
      ensures t[i] <= t[j]
    {
      assert t[j] == s[j - 1] && s[j - 1] in s;
    }
  }

  /** The library's sort on identifiers. */
  function SortIds(s: seq<Id>): (r: seq<Id>)
    ensures Ascending(r) && multiset(r) == multiset(s)
  {
    if s == [] then []
    else
      assert s == [s[0]] + s[1..];
      InsertIdAscends(s[0], SortIds(s[1..]));
      InsertId(s[0], SortIds(s[1..]))
  }

  lemma SameElements<T>(a: seq<T>, b: seq<T>)
    requires multiset(a) == multiset(b)
    ensures forall x :: x in a <==> x in b
  {
    forall x
      ensures x in a <==> x in b
    {
      assert x in a <==> x in multiset(a);
      assert x in b <==> x in multiset(b);
    }
  }

  lemma SomeElement<T>(s: seq<T>)
    ensures s == [] || exists x :: x in s
  {
    if s != [] {
      assert s[0] in s;
    }
  }

  /** The last element of a sequence, found in any other order of it. */
  lemma PickLast<T>(s: seq<T>, t: seq<T>) returns (i: nat)
    requires s != [] && multiset(s) == multiset(t)
    ensures i < |t| && t[i] == s[|s| - 1] && multiset(s[..|s| - 1]) == multiset(t[..i] + t[i + 1..])
  {
    var last := s[|s| - 1];
    assert s == s[..|s| - 1] + [last];
    assert last in multiset(t);
    i :| 0 <= i < |t| && t[i] == last;
    assert t == t[..i] + [last] + t[i + 1..];
    assert multiset(s) == multiset(s[..|s| - 1]) + multiset{last};
    assert multiset(t) == multiset(t[..i] + t[i + 1..]) + multiset{last};
    assert multiset(s[..|s| - 1]) == multiset(s) - multiset{last};
  }

  ghost predicate Distinct<T>(s: seq<T>) {
    forall i, j | 0 <= i < j < |s| :: s[i] != s[j]
  }

  lemma {:induction false} DistinctSetSize<T(!new)>(s: seq<T>, elements: set<T>)
    requires Distinct(s) && forall x :: x in elements <==> x in s
    ensures |elements| == |s|
  {
    if s == [] {
      assert elements == {};
    } else {
      assert s == s[..|s| - 1] + [s[|s| - 1]];
      DistinctSetSize(s[..|s| - 1], elements - {s[|s| - 1]});
    }
  }

  /** A sequence has no repetition exactly when its multiset has none. */
  lemma {:induction false} DistinctMultiset<T>(s: seq<T>)
    ensures Distinct(s) <==> forall x | x in s :: multiset(s)[x] == 1
  {
    if s != [] {
      var rest, last := s[..|s| - 1], s[|s| - 1];
      assert s == rest + [last];
      DistinctMultiset(rest);
      assert last in s && multiset(s)[last] == multiset(rest)[last] + 1;
      assert last in rest <==> last in multiset(rest);
      if Distinct(s) {
        assert Distinct(rest) && last !in rest;
        forall x | x in s ensures multiset(s)[x] == 1 {
        }
      } else if forall x | x in s :: multiset(s)[x] == 1 {
        forall x | x in rest ensures multiset(rest)[x] == 1 {
          assert x in s;
        }
        assert false;
      }
    }
  }

  lemma DistinctPermutation<T>(a: seq<T>, b: seq<T>)
    requires multiset(a) == multiset(b) && Distinct(a)
    ensures Distinct(b)
  {
    DistinctMultiset(a);
    DistinctMultiset(b);
    SameElements(a, b);
  }
}

/** When a lesson can be placed or two lessons exchanged, in terms of the problem and the lessons alone. */
module Vacancies {
  import opened Model
  import opened Lessons
  import opened Ledger
  import opened AttemptState
  import opened Engine
  import opened Filling
  import Repair
  import Attempt

  /** A period of the week in which lessons are taught. */
  ghost predicate Teachable(problem: Problem, per: Id) {
    exists q | q in problem.periods :: q.id == per && q.teaching && !q.excluded
  }

  ghost predicate TeacherFree(problem: Problem, ps: seq<Placement>, t: Id, per: Id) {
    && t in problem.teachers && problem.teachers[t].workspace == problem.workspace && per !in problem.teachers[t].unavailable
    && forall p | p in ps && p.teacher == t :: per !in p.periods
  }

  ghost predicate CohortFree(problem: Problem, ps: seq<Placement>, c: Id, per: Id) {
    && c in problem.cohorts && problem.cohorts[c].workspace == problem.workspace && per !in problem.cohorts[c].unavailable
    && forall p | p in ps && p.cohort == c :: per !in p.periods
  }

  predicate UsesIn(p: Placement, r: Id, per: Id) {
    p.resource == r && per in p.periods
  }

  /** The lessons that use the resource in the period. */
  ghost function Users(ps: seq<Placement>, r: Id, per: Id): set<nat> {
    set i: nat | i < |ps| && UsesIn(ps[i], r, per)
  }

  /** The resource is there and fewer lessons use it than it has room for. */
  ghost predicate ResourceFree(problem: Problem, ps: seq<Placement>, r: Id, per: Id) {
    && r in problem.resources && problem.resources[r].workspace == problem.workspace && per !in problem.resources[r].unavailable
    && |Users(ps, r, per)| < if problem.resources[r].capacity > 0 then problem.resources[r].capacity else 1
  }

  ghost predicate Vacant(problem: Problem, ps: seq<Placement>, a: Assignment, per: Id) {
    && Teachable(problem, per) && TeacherFree(problem, ps, a.teacher, per) && CohortFree(problem, ps, a.cohort, per)
    && (a.resource != NO_ID ==> ResourceFree(problem, ps, a.resource, per))
  }

  // ----- what the counters say

  lemma TeachableIs(problem: Problem, per: Id)
    requires WellFormed(problem)
    ensures UsableId(problem, per) <==> Teachable(problem, per)
  {
    PeriodByIdEntries(problem.periods);
    hide PeriodById;
  }

  lemma {:induction false} UsersAre(ps: seq<Placement>, r: Id, per: Id)
    requires r != NO_ID && forall p | p in ps :: Distinct(p.periods)
    ensures |Users(ps, r, per)| == Bookings(ResourceUse, ps)[(r, per)]
  {
    if ps == [] {
      assert Users(ps, r, per) == {};
    } else {
      hide Users, Distinct, Bookings, Keys, UsesIn;
      var rest, last := ps[..|ps| - 1], ps[|ps| - 1];
      assert ps == rest + [last];
      UsersAre(rest, r, per);
      UsersMore(rest, last, r, per);
      BookingsAppend(ResourceUse, rest, last);
      UserCounts(last, r, per);
    }
  }

  lemma UserCounts(p: Placement, r: Id, per: Id)
    requires r != NO_ID && Distinct(p.periods)
    ensures Pairs(Keys(ResourceUse, p), p.periods)[(r, per)] == if UsesIn(p, r, per) then 1 else 0
  {
    PairsCount(Keys(ResourceUse, p), p.periods, (r, per));
    PeriodOnce(p.periods, per);
    hide Pairs;
  }

  lemma UsersMore(rest: seq<Placement>, last: Placement, r: Id, per: Id)
    ensures |Users(rest + [last], r, per)| == |Users(rest, r, per)| + if UsesIn(last, r, per) then 1 else 0
  {
    hide UsesIn;
    var n := |rest|;
    forall i: nat
      ensures i in Users(rest + [last], r, per) <==> i in Users(rest, r, per) || (i == n && UsesIn(last, r, per))
    {
    }
    assert n !in Users(rest, r, per);
    hide Users;
    assert Users(rest + [last], r, per) == Users(rest, r, per) + if UsesIn(last, r, per) then {n} else {};
  }

  lemma PeriodOnce(periods: seq<Id>, per: Id)
    requires Distinct(periods)
    ensures multiset(periods)[per] == if per in periods then 1 else 0
  {
    DistinctMultiset(periods);
    assert per in periods <==> per in multiset(periods);
  }

  lemma PlainLessons(problem: Problem, ps: seq<Placement>)
    requires WellFormed(problem) && Compatible(problem, Schedule(problem), ps)
    ensures forall p | p in ps :: Distinct(p.periods) && Keys(CohortUse, p) == [p.cohort]
  {
    hide WellFormed, Schedule, LegalLesson, Keys, Bookings, AtMostOnce, Capacity;
    forall p | p in ps
      ensures Distinct(p.periods) && Keys(CohortUse, p) == [p.cohort]
    {
      CohortKeys(problem, Schedule(problem), p);
      PeriodsDiffer(problem, Schedule(problem), p);
    }
  }

  lemma PeriodsDiffer(problem: Problem, assignments: map<Id, Assignment>, p: Placement)
    requires LegalLesson(problem, assignments, p)
    ensures Distinct(p.periods)
  {
    hide PeriodById, OpenCell, LocalTeacher, LocalCohort, LessonOf;
  }

  lemma NobodyBooked(o: Occupancy, ps: seq<Placement>, t: Id, c: Id, per: Id)
    requires Mirrors(o, ps) && forall p | p in ps :: Keys(CohortUse, p) == [p.cohort]
    ensures (t, per) !in o.teachers <==> forall p | p in ps && p.teacher == t :: per !in p.periods
    ensures (c, per) !in o.cohorts <==> forall p | p in ps && p.cohort == c :: per !in p.periods
  {
    assert (t, per) in o.teachers <==> Booked(TeacherUse, ps, t, per);
    assert (c, per) in o.cohorts <==> Booked(CohortUse, ps, c, per);
    hide Mirrors, Shows, CohortIds;
  }

  /** One cell of `canPlace` means that the period can be taught and that teacher, cohort and resource are free in it. */
  lemma FreeCellIs(problem: Problem, o: Occupancy, ps: seq<Placement>, a: Assignment, per: Id)
    requires WellFormed(problem) && Mirrors(o, ps) && Compatible(problem, Schedule(problem), ps)
    ensures LocalTeacher(problem, a.teacher) && LocalCohort(problem, a.cohort) && FreeCell(problem, o, a, per) <==> Vacant(problem, ps, a, per)
  {
    TeachableIs(problem, per);
    PlainLessons(problem, ps);
    hide WellFormed, Compatible, Schedule, PeriodById, Teachable;
    NobodyBooked(o, ps, a.teacher, a.cohort, per);
    if a.resource != NO_ID {
      UsersAre(ps, a.resource, per);
    }
    assert o.resources == Bookings(ResourceUse, ps);
    hide Mirrors, Keys, Users, Bookings, TeacherBlocked, CohortBlocked;
    CellParts(problem, o, ps, a, per);
  }

  lemma CellParts(problem: Problem, o: Occupancy, ps: seq<Placement>, a: Assignment, per: Id)
    requires UsableId(problem, per) <==> Teachable(problem, per)
    requires (a.teacher, per) !in o.teachers <==> forall p | p in ps && p.teacher == a.teacher :: per !in p.periods
    requires (a.cohort, per) !in o.cohorts <==> forall p | p in ps && p.cohort == a.cohort :: per !in p.periods
    requires a.resource != NO_ID ==> |Users(ps, a.resource, per)| == o.resources[(a.resource, per)]
    ensures LocalTeacher(problem, a.teacher) && LocalCohort(problem, a.cohort) && FreeCell(problem, o, a, per) <==> Vacant(problem, ps, a, per)
  {
    hide PeriodById, Teachable, Users;
  }

  /** `canPlace` approves exactly the lessons whose teacher and cohort belong here and for which every period is vacant. */
  lemma CanPlaceIff(problem: Problem, o: Occupancy, ps: seq<Placement>, a: Assignment, cell: seq<Id>)
    requires WellFormed(problem) && Mirrors(o, ps) && Compatible(problem, Schedule(problem), ps) && cell != []
    ensures CanPlace(problem, o, a, cell) <==> forall per | per in cell :: Vacant(problem, ps, a, per)
  {
    hide WellFormed, Mirrors, Compatible, Schedule, Vacant, FreeCell, LocalTeacher, LocalCohort;
    forall per | per in cell
      ensures LocalTeacher(problem, a.teacher) && LocalCohort(problem, a.cohort) && FreeCell(problem, o, a, per) <==> Vacant(problem, ps, a, per)
    {
      FreeCellIs(problem, o, ps, a, per);
    }
    assert cell[0] in cell;
  }

  // ----- what an attempt leaves

  lemma EndMeans(problem: Problem, config: Config, c: Attempt.Course, o: Occupancy, b: Books<Id>)
    requires Attempt.Follows(problem, config, c, o, b, false)
    ensures Attempt.NoPairMissed(problem, c.paired) && Attempt.Reached(problem, c.paired, b)
    ensures Attempt.NoSingleMissed(problem, c.filled) && Attempt.Reached(problem, c.filled, b)
    ensures Attempt.Exhausted(problem, o, b)
  {
    hide Attempt.NoPairMissed, Attempt.Reached, Attempt.NoSingleMissed, Attempt.Exhausted, Attempt.Begins, Adds, Repair.Resettled, Attempt.InLessonOrder;
  }

  lemma StageIs(problem: Problem, stage: Attempt.Stage, b: Books<Id>)
    requires Attempt.Reached(problem, stage, b)
    ensures Mirrors(stage.occupancy, stage.books.placements) && Kept(problem, stage.books)
  {
    hide Mirrors, Kept;
  }

  /** When the fill of single periods is over, no assignment with periods and no double lessons left has a vacant period. */
  lemma NothingVacant(problem: Problem, config: Config, c: Attempt.Course, o: Occupancy, b: Books<Id>, id: Id, per: Id)
    requires WellFormed(problem) && Attempt.Follows(problem, config, c, o, b, false) && id in Schedule(problem)
    requires Left(c.filled.books.remaining, id) > 0 && Left(c.filled.books.doubles, id) == 0
    ensures !Vacant(problem, c.filled.books.placements, Schedule(problem)[id], per)
  {
    hide *;
    EndMeans(problem, config, c, o, b);
    StageIs(problem, c.filled, b);
    KeptParts(problem, c.filled.books);
    TeachableIs(problem, per);
    CanPlaceIff(problem, c.filled.occupancy, c.filled.books.placements, Schedule(problem)[id], [per]);
    NoPlaceFor(problem, c.filled, id, per);
    VacantIsTeachable(problem, c.filled.books.placements, Schedule(problem)[id], per);
  }

  lemma NoPlaceFor(problem: Problem, stage: Attempt.Stage, id: Id, per: Id)
    requires Attempt.NoSingleMissed(problem, stage) && id in Schedule(problem) && Left(stage.books.remaining, id) > 0 && Left(stage.books.doubles, id) == 0
    ensures UsableId(problem, per) ==> !CanPlace(problem, stage.occupancy, Schedule(problem)[id], [per])
  {
    hide CanPlace, UsableId, Schedule;
  }

  lemma VacantIsTeachable(problem: Problem, ps: seq<Placement>, a: Assignment, per: Id)
    ensures Vacant(problem, ps, a, per) ==> Teachable(problem, per)
  {
    hide Teachable, TeacherFree, CohortFree;
  }

  /** When the fill of pairs is over, no double lesson that is left has a pair of vacant periods among the disjoint adjacent pairs of the scan. */
  lemma NoPairVacant(problem: Problem, config: Config, c: Attempt.Course, o: Occupancy, b: Books<Id>, id: Id, cell: seq<Id>)
    requires WellFormed(problem) && Attempt.Follows(problem, config, c, o, b, false) && id in Schedule(problem)
    requires Left(c.paired.books.doubles, id) > 0 && Left(c.paired.books.remaining, id) >= 2 && cell in c.paired.cells
    ensures exists per | per in cell :: !Vacant(problem, c.paired.books.placements, Schedule(problem)[id], per)
  {
    hide *;
    EndMeans(problem, config, c, o, b);
    StageIs(problem, c.paired, b);
    KeptParts(problem, c.paired.books);
    NoPairFor(problem, c.paired, id, cell);
    CanPlaceIff(problem, c.paired.occupancy, c.paired.books.placements, Schedule(problem)[id], cell);
  }

  lemma NoPairFor(problem: Problem, stage: Attempt.Stage, id: Id, cell: seq<Id>)
    requires Attempt.NoPairMissed(problem, stage) && id in Schedule(problem)
    requires Left(stage.books.doubles, id) > 0 && Left(stage.books.remaining, id) >= 2 && cell in stage.cells
    ensures cell != [] && !CanPlace(problem, stage.occupancy, Schedule(problem)[id], cell)
  {
    hide CanPlace, Schedule, UsableId, WellShaped;
  }

  /** At the end no exchange is left: no lesson can move so that an assignment gets the period. */
  lemma NoExchangeLeft(problem: Problem, config: Config, c: Attempt.Course, o: Occupancy, b: Books<Id>, id: Id, per: Id, i: nat, hole: Id)
    requires WellFormed(problem) && Mirrors(o, b.placements) && Kept(problem, b) && id in Schedule(problem)
    requires Attempt.Follows(problem, config, c, o, b, false)
    requires Schedule(problem)[id].resource == NO_ID && Left(b.remaining, id) > 0 && Left(b.doubles, id) == 0
    requires Teachable(problem, per) && Teachable(problem, hole) && TeacherFree(problem, b.placements, Schedule(problem)[id].teacher, per)
    ensures !CanMove(problem, b.placements, i, Schedule(problem)[id].cohort, per, hole)
  {
    hide *;
    EndMeans(problem, config, c, o, b);
    TeacherIsLocal(problem, b.placements, Schedule(problem)[id].teacher, per);
    KeptParts(problem, b);
    TeachableIs(problem, per);
    TeachableIs(problem, hole);
    OpensIff(problem, o, b, id, per, i, hole);
    NothingOpens(problem, o, b, id, per, i, hole);
  }

  lemma NothingOpens(problem: Problem, o: Occupancy, b: Books<Id>, id: Id, per: Id, i: nat, hole: Id)
    requires Attempt.Exhausted(problem, o, b) && UsableId(problem, per) && UsableId(problem, hole)
    ensures !Repair.Opens(problem, Schedule(problem), o, b, id, per, i, hole)
  {
    hide Repair.Opens, UsableId;
  }

  lemma TeacherIsLocal(problem: Problem, ps: seq<Placement>, t: Id, per: Id)
    requires TeacherFree(problem, ps, t, per)
    ensures LocalTeacher(problem, t)
  {
  }

  // ----- the exchange

  /** The `i`-th lesson is the single lesson of the cohort in `per`, and its teacher and cohort could as well meet in `hole`. */
  ghost predicate CanMove(problem: Problem, ps: seq<Placement>, i: nat, cohort: Id, per: Id, hole: Id) {
    && i < |ps| && !ps[i].double && ps[i].cohort == cohort && ps[i].periods == [per] && ps[i].resource == NO_ID
    && TeacherFree(problem, ps, ps[i].teacher, hole) && CohortFree(problem, ps, cohort, hole)
  }

  /** The exchanges that are looked for are exactly these: an assignment without a resource has a single lesson left, its teacher is free in
      the period, and the lesson that its cohort has then, one without a resource, can move to the hole. */
  lemma OpensIff(problem: Problem, o: Occupancy, b: Books<Id>, id: Id, per: Id, i: nat, hole: Id)
    requires WellFormed(problem) && Mirrors(o, b.placements) && Kept(problem, b) && id in Schedule(problem)
    requires LocalTeacher(problem, Schedule(problem)[id].teacher)
    ensures var a := Schedule(problem)[id];
            Repair.Opens(problem, Schedule(problem), o, b, id, per, i, hole) <==>
              && a.resource == NO_ID && Left(b.remaining, id) > 0 && Left(b.doubles, id) <= 0
              && TeacherFree(problem, b.placements, a.teacher, per) && CanMove(problem, b.placements, i, a.cohort, per, hole)
  {
    var a := Schedule(problem)[id];
    hide *;
    ScheduleEntries(problem);
    KeptParts(problem, b);
    PlainLessons(problem, b.placements);
    if i < |b.placements| {
      var p := b.placements[i];
      Repair.CompatibleParts(problem, b.placements, i);
      LessonParts(problem, p);
      NobodyBooked(o, b.placements, a.teacher, a.cohort, per);
      NobodyBooked(o, b.placements, p.teacher, a.cohort, hole);
      OpensParts(problem, o, b, id, per, i, hole);
    } else {
      NoSuchLesson(problem, o, b, id, per, i, hole);
    }
  }

  lemma KeptParts(problem: Problem, b: Books<Id>)
    requires Kept(problem, b)
    ensures Compatible(problem, Schedule(problem), b.placements)
  {
  }

  /** A lesson of the solver is for a scheduled assignment, with its teacher, its cohort, its subject and its resource, in the problem's term. */
  lemma LessonParts(problem: Problem, p: Placement)
    requires LegalLesson(problem, Schedule(problem), p) && WellFormed(problem)
    ensures p.assignment in Schedule(problem)
    ensures var a := Schedule(problem)[p.assignment];
            && a in problem.assignments && Schedulable(problem, a) && a.id == p.assignment
            && p.teacher == a.teacher && p.cohort == a.cohort && p.resource == a.resource && LocalTeacher(problem, a.teacher) && LocalCohort(problem, a.cohort)
            && p.subject == a.subject && p.cohortSubject == a.cohortSubject
    ensures p.workspace == problem.workspace && p.year == problem.year && p.term == problem.term
    ensures p.group == NO_ID && p.block == NO_ID && p.learners == [] && p.assignments == [] && p.cohorts == []
  {
    ScheduleEntries(problem);
    hide Schedule, WellFormed, WellShaped, OpenCell;
  }

  lemma NoSuchLesson(problem: Problem, o: Occupancy, b: Books<Id>, id: Id, per: Id, i: nat, hole: Id)
    requires i >= |b.placements| && id in Schedule(problem)
    ensures !Repair.Opens(problem, Schedule(problem), o, b, id, per, i, hole)
    ensures !CanMove(problem, b.placements, i, Schedule(problem)[id].cohort, per, hole)
  {
    hide Schedule;
  }

  lemma OpensParts(problem: Problem, o: Occupancy, b: Books<Id>, id: Id, per: Id, i: nat, hole: Id)
    requires id in Schedule(problem) && i < |b.placements| && b.placements[i].assignment in Schedule(problem)
    requires var a, p, q := Schedule(problem)[id], b.placements[i], Schedule(problem)[b.placements[i].assignment];
             && p.teacher == q.teacher && p.cohort == q.cohort && p.resource == q.resource && LocalTeacher(problem, q.teacher) && LocalCohort(problem, q.cohort)
             && LocalTeacher(problem, a.teacher)
             && ((a.teacher, per) !in o.teachers <==> forall p | p in b.placements && p.teacher == a.teacher :: per !in p.periods)
             && ((p.teacher, hole) !in o.teachers <==> forall q | q in b.placements && q.teacher == p.teacher :: hole !in q.periods)
             && ((a.cohort, hole) !in o.cohorts <==> forall p | p in b.placements && p.cohort == a.cohort :: hole !in p.periods)
    ensures var a := Schedule(problem)[id];
            Repair.Opens(problem, Schedule(problem), o, b, id, per, i, hole) <==>
              && a.resource == NO_ID && Left(b.remaining, id) > 0 && Left(b.doubles, id) <= 0
              && TeacherFree(problem, b.placements, a.teacher, per) && CanMove(problem, b.placements, i, a.cohort, per, hole)
  {
    hide Schedule;
  }
}

/** `solveAudienceAttempt`: parallel blocks first, then every task on its own. */
module AudienceSolver {
  import opened Model
  import opened Lessons
  import opened Ledger
  import opened AttemptState
  import opened Tasks
  import opened DoubleDemand
  import opened Audience
  import opened Adjacency
  import opened Engine
  import AudiencePreflight
  import Validator

  // ----- what every step keeps

  /** The block is run: it is active and has at least two groups. */
  predicate Running(problem: Problem, d: Block) {
    ActiveBlock(problem, d) && |d.groups| >= 2
  }

  /** The block is run, and the group belongs to it. */
  ghost predicate Hosts(problem: Problem, block: Id, group: Id) {
    exists d | d in problem.blocks && Running(problem, d) :: d.id == block && group in d.groups
  }

  /** The tag of a group names a block that is run and that the group belongs to; a group without a tag belongs to none. */
  ghost predicate TagFits(problem: Problem, block: Id, group: Id) {
    if block != NO_ID then Hosts(problem, block, group)
    else group == NO_ID || forall d | d in problem.blocks && Running(problem, d) :: group !in d.groups
  }

  /** A lesson as the solver makes them. */
  ghost predicate IsLessonOf(problem: Problem, t: Spec, p: Placement) {
    && p == TaskLesson(problem, t, p.block, p.periods, p.double) && TagFits(problem, p.block, t.group) && WellShaped(problem, p.periods, p.double)
    && LocalPeople(problem, t) && forall per | per in p.periods :: OpenFor(problem, t, per)
  }

  ghost predicate LegalTaskLesson(problem: Problem, specs: seq<Spec>, p: Placement) {
    exists t | t in specs :: IsLessonOf(problem, t, p)
  }

  /** Every task has its counters, with room for the double lessons that are still to come. */
  ghost predicate Accounted(specs: seq<Spec>, b: Books<TaskKey>) {
    forall t | t in specs :: t.key in b.remaining && t.key in b.doubles && b.doubles[t.key] >= 0 && b.remaining[t.key] >= 2 * b.doubles[t.key]
  }

  /** No group is in two places at once; nor is anybody or anything else, if the blocks can run. */
  ghost predicate Orderly(problem: Problem, ps: seq<Placement>) {
    AtMostOnce(Bookings(GroupUse, ps)) && (BlocksCanRun(problem) ==> Exclusive(problem, ps))
  }

  /** The group is free for the lesson. */
  ghost predicate GroupFree(ps: seq<Placement>, p: Placement) {
    forall g, per | g in Keys(GroupUse, p) && per in p.periods :: !Booked(GroupUse, ps, g, per)
  }

  /** The group is free for the lesson; and so is everybody and everything else, if the blocks can run. */
  ghost predicate FitsIn(problem: Problem, ps: seq<Placement>, p: Placement) {
    GroupFree(ps, p) && (BlocksCanRun(problem) ==> FreeFrom(problem, ps, p) && ResourceLeft(problem, ps, p))
  }

  lemma FreeGroup(problem: Problem, ps: seq<Placement>, p: Placement)
    requires FreeFrom(problem, ps, p)
    ensures GroupFree(ps, p)
  {
    hide Keys, Booked;
    forall g, per | g in Keys(GroupUse, p) && per in p.periods
      ensures !Booked(GroupUse, ps, g, per)
    {
      assert FreeFor(problem, ps, p, per);
    }
  }

  /** A lesson that fits in keeps the lessons orderly. */
  lemma AddOrderly(problem: Problem, ps: seq<Placement>, p: Placement)
    requires Orderly(problem, ps) && FitsIn(problem, ps, p) && Distinct(p.periods) && Distinct(p.learners)
    ensures Orderly(problem, ps + [p])
  {
    KeysDistinct(p);
    hide AtMostOnce, Bookings, Exclusive, BlocksCanRun, FreeFrom, ResourceLeft, Keys, Booked;
    AddDisjoint(GroupUse, ps, p);
    if BlocksCanRun(problem) {
      AddExclusive(problem, ps, p);
    }
  }

  ghost predicate Sound(problem: Problem, specs: seq<Spec>, o: Occupancy, b: Books<TaskKey>) {
    && Mirrors(o, b.placements) && Orderly(problem, b.placements) && (forall p | p in b.placements :: LegalTaskLesson(problem, specs, p))
    && Accounted(specs, b) && Conserved(problem, specs, b) && Worked(specs, b) && Given(specs, b) && DoublesKept(specs, b)
  }

  /** Every lesson belongs to a task. */
  lemma LegalHasTask(problem: Problem, specs: seq<Spec>, o: Occupancy, b: Books<TaskKey>, p: Placement) returns (t: Spec)
    requires Sound(problem, specs, o, b) && p in b.placements
    ensures t in specs && IsLessonOf(problem, t, p)
  {
    hide Mirrors, Orderly, Accounted, Conserved, Worked, Given, DoublesKept, IsLessonOf;
    assert LegalTaskLesson(problem, specs, p);
    t :| t in specs && IsLessonOf(problem, t, p);
  }

  /** What the preflight makes sure of about the tasks. */
  ghost predicate GoodTasks(problem: Problem, specs: seq<Spec>) {
    DistinctKeys(specs) && forall t | t in specs :: Tidy(t) && MembersOfCohorts(problem, t)
  }

  /** The task still wants a lesson of this kind. */
  predicate WantsLesson(b: Books<TaskKey>, t: Spec, double: bool) {
    Left(b.remaining, t.key) > 0 && if double then Left(b.doubles, t.key) > 0 else Left(b.doubles, t.key) == 0
  }

  lemma EnterAccounted(problem: Problem, specs: seq<Spec>, b: Books<TaskKey>, t: Spec, p: Placement)
    requires DistinctKeys(specs) && Accounted(specs, b) && t in specs && WantsLesson(b, t, p.double)
    requires |p.periods| == if p.double then 2 else 1
    ensures Accounted(specs, Enter(b, p, t.key))
  {
  }

  lemma LessonIsLegal(problem: Problem, specs: seq<Spec>, ps: seq<Placement>, t: Spec, p: Placement)
    requires t in specs && IsLessonOf(problem, t, p) && forall q | q in ps :: LegalTaskLesson(problem, specs, q)
    ensures forall q | q in ps + [p] :: LegalTaskLesson(problem, specs, q)
  {
    hide IsLessonOf;
  }

  lemma ShapeFacts(problem: Problem, t: Spec, p: Placement)
    requires IsLessonOf(problem, t, p) && Tidy(t)
    ensures Distinct(p.periods) && |p.periods| == (if p.double then 2 else 1) && Distinct(p.learners) && p.periods != []
  {
    ShapeIsDistinct(problem, p.periods, p.double);
  }

  /** A free lesson of a task that wants it keeps everything in order. */
  lemma LessonKeeps(problem: Problem, specs: seq<Spec>, o: Occupancy, b: Books<TaskKey>, t: Spec, p: Placement)
    requires GoodTasks(problem, specs) && Sound(problem, specs, o, b) && t in specs && WantsLesson(b, t, p.double)
    requires IsLessonOf(problem, t, p) && FitsIn(problem, b.placements, p)
    ensures Sound(problem, specs, Occupied(o, p), Enter(b, p, t.key))
  {
    hide Mirrors, Orderly, LegalTaskLesson, Accounted, Conserved, Tidy, MembersOfCohorts, DistinctKeys, FitsIn, WantsLesson, Occupied,
         WellShaped, LocalPeople, OpenFor, Worked, Given, DoublesKept, TagFits;
    ShapeFacts(problem, t, p);
    OccupiedMirrors(o, b.placements, p);
    AddOrderly(problem, b.placements, p);
    LessonIsLegal(problem, specs, b.placements, t, p);
    EnterAccounted(problem, specs, b, t, p);
    LessonConserves(problem, specs, b, t, p.block, p.periods, p.double);
    LessonWorks(problem, specs, b, t, p.block, p.periods, p.double);
    LessonKeepsDoubles(problem, specs, b, t, p.block, p.periods, p.double);
    GroupIsFreeFor(problem, b.placements, t, p);
    assert forall u | u in specs :: Tidy(u);
    LessonGives(problem, specs, b, t, p);
  }

  lemma GroupIsFreeFor(problem: Problem, ps: seq<Placement>, t: Spec, p: Placement)
    requires IsLessonOf(problem, t, p) && FitsIn(problem, ps, p)
    ensures p.group == t.group
    ensures t.group != NO_ID ==> forall per | per in p.periods :: !Booked(GroupUse, ps, t.group, per)
  {
    hide WellShaped, LocalPeople, OpenFor, TagFits, Booked, BlocksCanRun, FreeFrom, ResourceLeft;
    assert t.group != NO_ID ==> t.group in Keys(GroupUse, p);
  }

  // ----- task objects

  /** The task object counts what the books count. */
  ghost predicate Follows(t: Task, b: Books<TaskKey>)
    reads t`remaining, t`doubles
  {
    t.remaining == Left(b.remaining, t.spec.key) && t.doubles == Left(b.doubles, t.spec.key)
  }

  /** One task object for each task. */
  ghost predicate OneEach(tasks: set<Task>, specs: seq<Spec>) {
    && (forall t | t in tasks :: t.spec in specs)
    && forall t, u | t in tasks && u in tasks && t.spec.key == u.spec.key :: t == u
  }

  ghost predicate Linked(tasks: set<Task>, specs: seq<Spec>, b: Books<TaskKey>)
    reads tasks`remaining, tasks`doubles
  {
    OneEach(tasks, specs) && forall t | t in tasks :: Follows(t, b)
  }

  /** `placeTask`, with the counters of the task object. */
  method PlaceTask(problem: Problem, state: State<TaskKey>, ghost specs: seq<Spec>, ghost tasks: set<Task>, task: Task, periods: seq<Id>, double: bool)
    requires GoodTasks(problem, specs) && Sound(problem, specs, state.occupancy, state.books) && Linked(tasks, specs, state.books) && task in tasks
    requires WantsLesson(state.books, task.spec, double)
    requires var p := TaskLesson(problem, task.spec, task.block, periods, double);
             IsLessonOf(problem, task.spec, p) && FitsIn(problem, state.books.placements, p)
    modifies state`books, state`occupancy, task`remaining, task`doubles
    ensures Sound(problem, specs, state.occupancy, state.books) && Linked(tasks, specs, state.books)
    ensures state.books == Enter(old(state.books), TaskLesson(problem, task.spec, task.block, periods, double), task.spec.key)
  {
    hide *;
    SoundMirrors(problem, specs, state.occupancy, state.books);
    var p := TaskLesson(problem, task.spec, task.block, periods, double);
    ghost var before := state.books;
    LinkedParts(tasks, specs, before, task);
    LessonSettings(problem, task.spec, task.block, periods, double);
    LessonKeeps(problem, specs, state.occupancy, before, task.spec, p);
    state.Record(p, task.spec.key);
    task.remaining := task.remaining - |periods|;
    if double {
      task.doubles := task.doubles - 1;
    }
    LinkedAfter(tasks, specs, before, task, p);
  }

  lemma SoundMirrors(problem: Problem, specs: seq<Spec>, o: Occupancy, b: Books<TaskKey>)
    requires Sound(problem, specs, o, b)
    ensures Mirrors(o, b.placements)
  {
    hide Mirrors;
  }

  lemma LinkedParts(tasks: set<Task>, specs: seq<Spec>, b: Books<TaskKey>, task: Task)
    requires Linked(tasks, specs, b) && task in tasks
    ensures task.spec in specs && OneEach(tasks, specs) && forall t | t in tasks && t != task :: Follows(t, b)
    ensures task.remaining == Left(b.remaining, task.spec.key) && task.doubles == Left(b.doubles, task.spec.key)
  {
  }

  lemma LessonSettings(problem: Problem, t: Spec, block: Id, periods: seq<Id>, double: bool)
    ensures var p := TaskLesson(problem, t, block, periods, double); p.double == double && p.periods == periods && p.block == block
  {
  }

  lemma LinkedAfter(tasks: set<Task>, specs: seq<Spec>, b: Books<TaskKey>, task: Task, p: Placement)
    requires OneEach(tasks, specs) && task in tasks && forall t | t in tasks && t != task :: Follows(t, b)
    requires task.remaining == Left(b.remaining, task.spec.key) - |p.periods|
    requires task.doubles == Left(b.doubles, task.spec.key) - if p.double then 1 else 0
    ensures Linked(tasks, specs, Enter(b, p, task.spec.key))
  {
    forall t | t in tasks
      ensures Follows(t, Enter(b, p, task.spec.key))
    {
      assert t != task ==> t.spec.key != task.spec.key;
    }
  }

  // ----- a round of a parallel block

  /** The lessons of a round: the same periods for every member. */
  ghost function Round(problem: Problem, ms: seq<Spec>, block: Id, cell: seq<Id>, double: bool): (r: seq<Placement>)
    ensures |r| == |ms|
  {
    seq(|ms|, i requires 0 <= i < |ms| => TaskLesson(problem, ms[i], block, cell, double))
  }

  ghost predicate HasKey(ms: seq<Spec>, key: TaskKey) {
    exists m | m in ms :: m.key == key
  }

  /** Each member pays for one lesson, and nobody else does. */
  ghost predicate Charged(before: Books<TaskKey>, after: Books<TaskKey>, ms: seq<Spec>, size: nat, double: bool) {
    forall key ::
      && Left(after.remaining, key) == Left(before.remaining, key) - (if HasKey(ms, key) then size else 0)
      && Left(after.doubles, key) == Left(before.doubles, key) - (if HasKey(ms, key) && double then 1 else 0)
  }

  /** The members are tasks of different groups; and they can always run at the same time, if the blocks can run. */
  ghost predicate Parallel(problem: Problem, ms: seq<Spec>, block: Id) {
    && (forall i, j | 0 <= i < j < |ms| :: ms[i].key != ms[j].key && ms[i].group != ms[j].group)
    && (BlocksCanRun(problem) ==>
          forall i, j | 0 <= i < j < |ms| :: Together(problem, TaskLesson(problem, ms[i], block, [], false), TaskLesson(problem, ms[j], block, [], false)))
  }

  /** The member's lesson can be placed in the cell. */
  ghost predicate Ready(problem: Problem, ps: seq<Placement>, m: Spec, p: Placement) {
    IsLessonOf(problem, m, p) && FreeFrom(problem, ps, p) && ResourceLeft(problem, ps, p)
  }

  lemma TogetherAnywhere(problem: Problem, s: Spec, t: Spec, block: Id, cell: seq<Id>, double: bool)
    requires Together(problem, TaskLesson(problem, s, block, [], false), TaskLesson(problem, t, block, [], false))
    ensures Together(problem, TaskLesson(problem, s, block, cell, double), TaskLesson(problem, t, block, cell, double))
  {
    hide Keys;
    KeysAnywhere(problem, s, block, cell, double, CohortUse);
    KeysAnywhere(problem, s, block, cell, double, GroupUse);
    KeysAnywhere(problem, t, block, cell, double, CohortUse);
    KeysAnywhere(problem, t, block, cell, double, GroupUse);
  }

  lemma KeysAnywhere(problem: Problem, t: Spec, block: Id, cell: seq<Id>, double: bool, kind: Kind)
    ensures Keys(kind, TaskLesson(problem, t, block, cell, double)) == Keys(kind, TaskLesson(problem, t, block, [], false))
  {
  }

  /** The members from `k` on can still be placed in the cell: each of them for all its group has to do with it, and all of them, if the
      blocks can run. */
  ghost predicate RestReady(problem: Problem, ms: seq<Spec>, lessons: seq<Placement>, b: Books<TaskKey>, cell: seq<Id>, k: nat, double: bool)
    requires |lessons| == |ms| && k <= |ms|
  {
    && (forall j | k <= j < |ms| :: IsLessonOf(problem, ms[j], lessons[j]) && GroupFree(b.placements, lessons[j]) && WantsLesson(b, ms[j], double))
    && (BlocksCanRun(problem) ==>
          (forall j | k <= j < |ms| :: FreeFrom(problem, b.placements, lessons[j])) && Room(problem, b.placements, lessons[k..], cell))
  }

  lemma StillGroupFree(ps: seq<Placement>, p: Placement, q: Placement)
    requires GroupFree(ps, q) && p.group != q.group
    ensures GroupFree(ps + [p], q)
  {
    assert forall g :: !(g in Keys(GroupUse, p) && g in Keys(GroupUse, q));
    hide Keys, Booked;
    forall g, per | g in Keys(GroupUse, q) && per in q.periods
      ensures !Booked(GroupUse, ps + [p], g, per)
    {
      BookedAppend(GroupUse, ps, p, g, per);
    }
  }

  lemma OthersGroupFree(problem: Problem, ms: seq<Spec>, b: Books<TaskKey>, block: Id, cell: seq<Id>, k: nat, double: bool)
    requires Parallel(problem, ms, block) && k < |ms|
    requires RestReady(problem, ms, Round(problem, ms, block, cell, double), b, cell, k, double)
    ensures var lessons := Round(problem, ms, block, cell, double);
            forall j | k + 1 <= j < |ms| :: IsLessonOf(problem, ms[j], lessons[j]) && GroupFree(b.placements + [lessons[k]], lessons[j])
                                             && WantsLesson(Enter(b, lessons[k], ms[k].key), ms[j], double)
  {
    var lessons := Round(problem, ms, block, cell, double);
    assert forall j | 0 <= j < |ms| :: lessons[j].group == ms[j].group;
    hide Together, IsLessonOf, Room, FreeFrom, BlocksCanRun, GroupFree, Round;
    forall j | k + 1 <= j < |ms|
      ensures GroupFree(b.placements + [lessons[k]], lessons[j]) && WantsLesson(Enter(b, lessons[k], ms[k].key), ms[j], double)
    {
      StillGroupFree(b.placements, lessons[k], lessons[j]);
      assert ms[k].key != ms[j].key;
    }
  }

  lemma OthersFree(problem: Problem, ms: seq<Spec>, b: Books<TaskKey>, block: Id, cell: seq<Id>, k: nat, double: bool)
    requires BlocksCanRun(problem) && Parallel(problem, ms, block) && k < |ms| && Distinct(cell)
    requires RestReady(problem, ms, Round(problem, ms, block, cell, double), b, cell, k, double)
    ensures var lessons := Round(problem, ms, block, cell, double);
            && ResourceLeft(problem, b.placements, lessons[k]) && FreeFrom(problem, b.placements, lessons[k])
            && (forall j | k + 1 <= j < |ms| :: FreeFrom(problem, b.placements + [lessons[k]], lessons[j]))
            && Room(problem, b.placements + [lessons[k]], lessons[k + 1..], cell)
  {
    var lessons := Round(problem, ms, block, cell, double);
    hide FreeFrom, ResourceLeft, Together, IsLessonOf, Room, BlocksCanRun, GroupFree;
    forall j | k + 1 <= j < |ms|
      ensures FreeFrom(problem, b.placements + [lessons[k]], lessons[j])
    {
      TogetherAnywhere(problem, ms[k], ms[j], block, cell, double);
      StillFreeFrom(problem, b.placements, lessons[k], lessons[j]);
    }
    assert lessons[k..][0] == lessons[k] && lessons[k..][1..] == lessons[k + 1..] && lessons[k].periods == cell;
    RoomStep(problem, b.placements, lessons[k..], cell);
  }

  /** Placing one member leaves the others ready. */
  lemma OthersReady(problem: Problem, ms: seq<Spec>, b: Books<TaskKey>, block: Id, cell: seq<Id>, k: nat, double: bool)
    requires Parallel(problem, ms, block) && k < |ms| && Distinct(cell)
    requires RestReady(problem, ms, Round(problem, ms, block, cell, double), b, cell, k, double)
    ensures var lessons := Round(problem, ms, block, cell, double);
            && FitsIn(problem, b.placements, lessons[k])
            && RestReady(problem, ms, lessons, Enter(b, lessons[k], ms[k].key), cell, k + 1, double)
  {
    var lessons := Round(problem, ms, block, cell, double);
    EnterPlacements(b, lessons[k], ms[k].key);
    hide FreeFrom, ResourceLeft, IsLessonOf, Room, BlocksCanRun, GroupFree, Parallel, WantsLesson, Enter;
    OthersGroupFree(problem, ms, b, block, cell, k, double);
    if BlocksCanRun(problem) {
      OthersFree(problem, ms, b, block, cell, k, double);
    }
  }

  lemma ChargeOne(b: Books<TaskKey>, c: Books<TaskKey>, ms: seq<Spec>, k: nat, p: Placement, double: bool)
    requires k < |ms| && Charged(b, c, ms[..k], |p.periods|, double) && p.double == double
    requires forall i, j | 0 <= i < j < |ms| :: ms[i].key != ms[j].key
    ensures Charged(b, Enter(c, p, ms[k].key), ms[..k + 1], |p.periods|, double)
  {
    assert !HasKey(ms[..k], ms[k].key);
    forall key
      ensures HasKey(ms[..k + 1], key) <==> HasKey(ms[..k], key) || key == ms[k].key
    {
      assert ms[..k + 1] == ms[..k] + [ms[k]];
      assert forall m :: m in ms[..k + 1] <==> m in ms[..k] || m == ms[k];
    }
    hide HasKey;
  }

  method PlaceRound(problem: Problem, state: State<TaskKey>, ghost specs: seq<Spec>, ghost tasks: set<Task>, members: seq<Task>, ghost ms: seq<Spec>,
                    ghost block: Id, cell: seq<Id>, double: bool)
    requires GoodTasks(problem, specs) && Sound(problem, specs, state.occupancy, state.books) && Linked(tasks, specs, state.books)
    requires |members| == |ms| && forall i | 0 <= i < |ms| :: members[i] in tasks && members[i].spec == ms[i] && members[i].block == block
    requires Parallel(problem, ms, block) && RestReady(problem, ms, Round(problem, ms, block, cell, double), state.books, cell, 0, double)
    requires Distinct(cell)
    modifies state`books, state`occupancy, members`remaining, members`doubles
    ensures Sound(problem, specs, state.occupancy, state.books) && Linked(tasks, specs, state.books)
    ensures state.books.placements == old(state.books.placements) + Round(problem, ms, block, cell, double)
    ensures Charged(old(state.books), state.books, ms, |cell|, double)
  {
    hide *;
    ghost var lessons, b := Round(problem, ms, block, cell, double), state.books;
    ChargeNone(b, ms, |cell|, double);
    assert b.placements == b.placements + lessons[..0];
    for k := 0 to |members|
      invariant Sound(problem, specs, state.occupancy, state.books) && Linked(tasks, specs, state.books)
      invariant forall i | 0 <= i < |ms| :: members[i].block == block
      invariant state.books.placements == b.placements + lessons[..k]
      invariant RestReady(problem, ms, lessons, state.books, cell, k, double) && Charged(b, state.books, ms[..k], |cell|, double)
    {
      ghost var c := state.books;
      RoundFacts(problem, ms, c, block, cell, k, double);
      OthersReady(problem, ms, c, block, cell, k, double);
      ChargeOne(b, c, ms, k, lessons[k], double);
      PlaceTask(problem, state, specs, tasks, members[k], cell, double);
      assert state.books.placements == c.placements + [lessons[k]] by {
        EnterPlacements(c, lessons[k], ms[k].key);
      }
      assert lessons[..k + 1] == lessons[..k] + [lessons[k]];
    }
    assert lessons[..|members|] == lessons && ms[..|members|] == ms;
  }

  lemma EnterPlacements(b: Books<TaskKey>, p: Placement, key: TaskKey)
    ensures Enter(b, p, key).placements == b.placements + [p]
  {
  }

  lemma ChargeNone(b: Books<TaskKey>, ms: seq<Spec>, size: nat, double: bool)
    ensures Charged(b, b, ms[..0], size, double)
  {
  }

  lemma RoundFacts(problem: Problem, ms: seq<Spec>, b: Books<TaskKey>, block: Id, cell: seq<Id>, k: nat, double: bool)
    requires k < |ms| && Parallel(problem, ms, block) && RestReady(problem, ms, Round(problem, ms, block, cell, double), b, cell, k, double)
    ensures var p := TaskLesson(problem, ms[k], block, cell, double);
            && Round(problem, ms, block, cell, double)[k] == p && p.periods == cell && p.double == double
            && IsLessonOf(problem, ms[k], p) && WantsLesson(b, ms[k], double)
    ensures forall i, j | 0 <= i < j < |ms| :: ms[i].key != ms[j].key
  {
    hide IsLessonOf, FreeFrom, WantsLesson, Together, Room, BlocksCanRun, GroupFree;
  }

  /** A member passes the test of `placeParallelMembers`. */
  predicate MemberFits(problem: Problem, o: Occupancy, b: Books<TaskKey>, m: Spec, cell: seq<Id>, double: bool) {
    Left(b.remaining, m.key) > 0 && (double ==> Left(b.doubles, m.key) > 0) && CanPlaceTask(problem, o, m, cell)
  }

  lemma FitsIsReady(problem: Problem, o: Occupancy, ps: seq<Placement>, m: Spec, block: Id, cell: seq<Id>, double: bool)
    requires Mirrors(o, ps) && Tidy(m) && MembersOfCohorts(problem, m) && IsCell(problem, cell, if double then 2 else 1)
    requires CanPlaceTask(problem, o, m, cell) && TagFits(problem, block, m.group)
    ensures Ready(problem, ps, m, TaskLesson(problem, m, block, cell, double))
  {
    CanPlaceIsFree(problem, o, ps, m, block, cell, double);
    hide Mirrors, FreeFrom, ResourceLeft, Tidy, MembersOfCohorts, WellShaped, OpenFor, UsableId, TagFits;
    forall per | per in cell
      ensures OpenFor(problem, m, per)
    {
      assert FreeTaskCell(problem, o, m, per);
    }
  }

  lemma MembersReady(problem: Problem, specs: seq<Spec>, o: Occupancy, b: Books<TaskKey>, ms: seq<Spec>, block: Id, cell: seq<Id>, double: bool)
    requires GoodTasks(problem, specs) && Sound(problem, specs, o, b) && IsCell(problem, cell, if double then 2 else 1)
    requires forall i | 0 <= i < |ms| :: ms[i] in specs && MemberFits(problem, o, b, ms[i], cell, double) && TagFits(problem, block, ms[i].group)
    requires !double ==> forall i | 0 <= i < |ms| :: Left(b.doubles, ms[i].key) == 0
    requires Parallel(problem, ms, block) && Roomy(problem, ms, block) && WithinUsers(problem, b.placements, block)
    ensures RestReady(problem, ms, Round(problem, ms, block, cell, double), b, cell, 0, double)
  {
    var lessons := Round(problem, ms, block, cell, double);
    hide Mirrors, Exclusive, LegalTaskLesson, Accounted, Conserved, Worked, Given, DoublesKept, Tidy, MembersOfCohorts, IsCell, Ready, CanPlaceTask, TagFits, Parallel,
         Roomy, WithinUsers, Room, IsLessonOf, FreeFrom, ResourceLeft, AtMostOnce, BlocksCanRun, GroupFree;
    forall i | 0 <= i < |ms|
      ensures Ready(problem, b.placements, ms[i], lessons[i])
    {
      FitsIsReady(problem, o, b.placements, ms[i], block, cell, double);
    }
    forall i | 0 <= i < |ms|
      ensures IsLessonOf(problem, ms[i], lessons[i]) && FreeFrom(problem, b.placements, lessons[i]) && ResourceLeft(problem, b.placements, lessons[i])
      ensures GroupFree(b.placements, lessons[i])
    {
      ReadyParts(problem, b.placements, ms[i], lessons[i]);
      FreeGroup(problem, b.placements, lessons[i]);
    }
    if BlocksCanRun(problem) {
      RoundHasRoom(problem, b.placements, ms, block, cell, double);
    }
    assert lessons[0..] == lessons;
  }

  // ----- room for the members of a block

  /** The groups that use the resource, in the blocks that are run up to this one. */
  ghost function Users(problem: Problem, limit: Id, r: Id): set<Id> {
    set d, g | d in problem.blocks && Running(problem, d) && d.id <= limit && g in problem.groups && g.id in d.groups && g.resource == r :: g.id
  }

  /** Where two members share a resource, its capacity is enough for all groups that can have it by then, if the blocks can run. */
  ghost predicate Roomy(problem: Problem, ms: seq<Spec>, block: Id) {
    && (forall i | 0 <= i < |ms| :: ms[i].group != NO_ID && ms[i].key == GroupKey(ms[i].group))
    && (forall i | 0 <= i < |ms| :: ms[i].group in Users(problem, block, ms[i].resource))
    && (BlocksCanRun(problem) ==>
          forall i, j | 0 <= i < j < |ms| && ms[i].resource == ms[j].resource && ms[i].resource != NO_ID ::
            |Users(problem, block, ms[i].resource)| <= Capacity(problem, ms[i].resource))
  }

  /** Only groups of those blocks have had a lesson so far. */
  ghost predicate WithinUsers(problem: Problem, ps: seq<Placement>, limit: Id) {
    forall p | p in ps :: p.group != NO_ID && p.group in Users(problem, limit, p.resource)
  }

  /** No more lessons have the resource at once than there are groups to have it. */
  lemma {:induction false} BookedByGroups(ps: seq<Placement>, r: Id, per: Id, groups: set<Id>)
    requires NoClash(GroupUse, ps) && r != NO_ID
    requires forall p | p in ps && p.resource == r && per in p.periods :: p.group != NO_ID && p.group in groups
    ensures Bookings(ResourceUse, ps)[(r, per)] <= |groups|
  {
    if ps == [] {
      NoBookings(ResourceUse);
    } else {
      hide *;
      var rest, last := ps[..|ps| - 1], ps[|ps| - 1];
      assert ps == rest + [last] && last in ps && forall p | p in rest :: p in ps;
      NoClashRest(GroupUse, rest, last);
      if last.resource == r && per in last.periods {
        TakenByGroup(rest, last, per);
        TakesOne(rest, last, r, per);
        forall p | p in rest && p.resource == r && per in p.periods
          ensures p.group in groups - {last.group}
        {
          SharedGroup(rest, p, last.group, per);
        }
        BookedByGroups(rest, r, per, groups - {last.group});
      } else {
        BookedByGroups(rest, r, per, groups);
        TakesNone(rest, last, r, per);
      }
    }
  }

  /** A lesson of a group takes place when no other lesson of the group does. */
  lemma TakenByGroup(rest: seq<Placement>, p: Placement, per: Id)
    requires NoClash(GroupUse, rest + [p]) && p.group != NO_ID && per in p.periods
    ensures Distinct(p.periods) && !Booked(GroupUse, rest, p.group, per)
  {
    NoClashStep(GroupUse, rest, p);
    assert Keys(GroupUse, p) == [p.group];
    hide NoClash, Booked, Keys;
  }

  lemma TakesNone(ps: seq<Placement>, p: Placement, r: Id, per: Id)
    requires !(p.resource == r && per in p.periods) && r != NO_ID
    ensures Bookings(ResourceUse, ps + [p])[(r, per)] == Bookings(ResourceUse, ps)[(r, per)]
  {
    hide Bookings, Pairs;
    BookingsAppend(ResourceUse, ps, p);
    PairsMember(Keys(ResourceUse, p), p.periods, r, per);
    assert Pairs(Keys(ResourceUse, p), p.periods)[(r, per)] == 0;
  }

  lemma NoBookings(kind: Kind)
    ensures Bookings(kind, []) == multiset{}
  {
  }

  lemma SharedGroup(rest: seq<Placement>, p: Placement, group: Id, per: Id)
    requires p in rest && per in p.periods && p.group != NO_ID && !Booked(GroupUse, rest, group, per)
    ensures p.group != group
  {
    assert p.group in Keys(GroupUse, p);
    hide Keys;
  }

  /** The groups of the members that use the resource. */
  ghost function Takings(ms: seq<Spec>, r: Id): set<Id> {
    set m | m in ms && m.resource == r :: m.group
  }

  lemma {:induction false} TakersAreGroups(problem: Problem, ms: seq<Spec>, block: Id, cell: seq<Id>, double: bool, r: Id)
    requires forall i, j | 0 <= i < j < |ms| :: ms[i].group != ms[j].group
    ensures Takers(Round(problem, ms, block, cell, double), r) == |Takings(ms, r)|
    decreases |ms|
  {
    if ms != [] {
      var rest := ms[1..];
      TakersAreGroups(problem, rest, block, cell, double, r);
      assert Round(problem, ms, block, cell, double)[1..] == Round(problem, rest, block, cell, double);
      forall m | m in rest
        ensures m.group != ms[0].group
      {
        var i :| 0 <= i < |rest| && rest[i] == m;
        assert ms[i + 1] == m;
      }
      assert forall m :: m in ms <==> m == ms[0] || m in rest;
      if ms[0].resource == r {
        assert Takings(ms, r) == Takings(rest, r) + {ms[0].group};
      } else {
        assert Takings(ms, r) == Takings(rest, r);
      }
    }
  }

  /** A resource that no two members share has room for the one that needs it. */
  lemma FewTakers(problem: Problem, ms: seq<Spec>, r: Id)
    requires forall i, j | 0 <= i < j < |ms| :: !(ms[i].resource == r == ms[j].resource)
    ensures |Takings(ms, r)| <= 1
    ensures (forall m | m in ms :: m.resource != r) ==> Takings(ms, r) == {}
  {
    if m :| m in ms && m.resource == r {
      forall n | n in ms && n.resource == r
        ensures n == m
      {
        var i :| 0 <= i < |ms| && ms[i] == m;
        var j :| 0 <= j < |ms| && ms[j] == n;
      }
      assert Takings(ms, r) == {m.group};
    } else {
      assert Takings(ms, r) == {};
    }
  }

  lemma DifferentGroups(problem: Problem, ms: seq<Spec>, block: Id)
    requires Parallel(problem, ms, block) && Roomy(problem, ms, block)
    ensures forall i, j | 0 <= i < j < |ms| :: ms[i].group != ms[j].group
    ensures forall i | 0 <= i < |ms| :: ms[i].group != NO_ID && ms[i].group in Users(problem, block, ms[i].resource)
    ensures BlocksCanRun(problem) ==>
              forall i, j | 0 <= i < j < |ms| && ms[i].resource == ms[j].resource && ms[i].resource != NO_ID ::
                |Users(problem, block, ms[i].resource)| <= Capacity(problem, ms[i].resource)
  {
    hide Together, Users, Capacity, BlocksCanRun;
  }

  /** Members that were each free find room together. */
  lemma RoundHasRoom(problem: Problem, ps: seq<Placement>, ms: seq<Spec>, block: Id, cell: seq<Id>, double: bool)
    requires BlocksCanRun(problem) && Parallel(problem, ms, block) && Roomy(problem, ms, block) && WithinUsers(problem, ps, block) && Exclusive(problem, ps)
    requires var lessons := Round(problem, ms, block, cell, double);
             forall i | 0 <= i < |ms| :: FreeFrom(problem, ps, lessons[i]) && ResourceLeft(problem, ps, lessons[i])
    ensures Room(problem, ps, Round(problem, ms, block, cell, double), cell)
  {
    DifferentGroups(problem, ms, block);
    forall r: Id, per | r != NO_ID && per in cell
      ensures Bookings(ResourceUse, ps)[(r, per)] + Takers(Round(problem, ms, block, cell, double), r) <= Capacity(problem, r)
    {
      hide *;
      TakersAreGroups(problem, ms, block, cell, double, r);
      if i, j :| 0 <= i < j < |ms| && ms[i].resource == r == ms[j].resource {
        SharedRoom(problem, ps, ms, block, cell, double, r, per);
      } else {
        FewTakers(problem, ms, r);
        SingleRoom(problem, ps, ms, block, cell, double, r, per);
      }
    }
  }

  lemma SingleRoom(problem: Problem, ps: seq<Placement>, ms: seq<Spec>, block: Id, cell: seq<Id>, double: bool, r: Id, per: Id)
    requires Exclusive(problem, ps) && r != NO_ID && per in cell
    requires var lessons := Round(problem, ms, block, cell, double); forall i | 0 <= i < |ms| :: ResourceLeft(problem, ps, lessons[i])
    requires |Takings(ms, r)| <= 1 && ((forall m | m in ms :: m.resource != r) ==> Takings(ms, r) == {})
    ensures Bookings(ResourceUse, ps)[(r, per)] + |Takings(ms, r)| <= Capacity(problem, r)
  {
    hide Bookings, AtMostOnce, Apart, Takings, Capacity;
    assert Bookings(ResourceUse, ps)[(r, per)] <= Capacity(problem, (r, per).0);
    if m :| m in ms && m.resource == r {
      var i :| 0 <= i < |ms| && ms[i] == m;
      var lessons := Round(problem, ms, block, cell, double);
      assert lessons[i].resource == r && lessons[i].periods == cell;
    }
  }

  lemma SharedRoom(problem: Problem, ps: seq<Placement>, ms: seq<Spec>, block: Id, cell: seq<Id>, double: bool, r: Id, per: Id)
    requires WithinUsers(problem, ps, block) && Exclusive(problem, ps) && r != NO_ID && per in cell
    requires forall i | 0 <= i < |ms| :: ms[i].group != NO_ID && ms[i].group in Users(problem, block, ms[i].resource)
    requires |Users(problem, block, r)| <= Capacity(problem, r)
    requires var lessons := Round(problem, ms, block, cell, double); forall i | 0 <= i < |ms| :: FreeFrom(problem, ps, lessons[i])
    ensures Bookings(ResourceUse, ps)[(r, per)] + |Takings(ms, r)| <= Capacity(problem, r)
  {
    var users, mine := Users(problem, block, r), Takings(ms, r);
    assert NoClash(GroupUse, ps) by {
      ExclusiveIffNoClash(GroupUse, ps);
      hide NoClash, Bookings, AtMostOnce;
    }
    hide Bookings, AtMostOnce, NoClash, Capacity, Exclusive, Users;
    forall p | p in ps && p.resource == r && per in p.periods
      ensures p.group != NO_ID && p.group in users - mine
    {
      if p.group in mine {
        var m :| m in ms && m.resource == r && m.group == p.group;
        var i :| 0 <= i < |ms| && ms[i] == m;
        assert Round(problem, ms, block, cell, double)[i] == TaskLesson(problem, m, block, cell, double);
        GroupIsFree(problem, ps, m, block, cell, double, per);
        SharedGroup(ps, p, m.group, per);
      }
    }
    BookedByGroups(ps, r, per, users - mine);
    assert mine <= users;
    assert |users - mine| == |users| - |mine|;
  }

  lemma GroupIsFree(problem: Problem, ps: seq<Placement>, m: Spec, block: Id, cell: seq<Id>, double: bool, per: Id)
    requires FreeFrom(problem, ps, TaskLesson(problem, m, block, cell, double)) && per in cell && m.group != NO_ID
    ensures !Booked(GroupUse, ps, m.group, per)
  {
    var p := TaskLesson(problem, m, block, cell, double);
    assert p.periods == cell && m.group in Keys(GroupUse, p);
    hide Keys, Booked;
    assert FreeFor(problem, ps, p, per);
  }

  /** A round leaves only groups of those blocks with lessons. */
  lemma RoundWithinUsers(problem: Problem, before: Books<TaskKey>, after: Books<TaskKey>, ms: seq<Spec>, block: Id, cell: seq<Id>, double: bool)
    requires Parallel(problem, ms, block) && Roomy(problem, ms, block) && WithinUsers(problem, before.placements, block)
    requires RoundDone(problem, before, after, ms, block, cell, double)
    ensures WithinUsers(problem, after.placements, block)
  {
    DifferentGroups(problem, ms, block);
    hide Users, Parallel, Roomy, Charged;
    var lessons := Round(problem, ms, block, cell, double);
    forall p | p in after.placements
      ensures p.group != NO_ID && p.group in Users(problem, block, p.resource)
    {
      if p !in before.placements {
        var i :| 0 <= i < |lessons| && lessons[i] == p;
        assert p.group == ms[i].group && p.resource == ms[i].resource;
      }
    }
  }

  /** The members of a block, by their tasks. */
  ghost predicate AreMembers(members: seq<Task>, ms: seq<Spec>, tasks: set<Task>, block: Id)
    reads members`block
  {
    |members| == |ms| && forall i | 0 <= i < |ms| :: members[i] in tasks && members[i].spec == ms[i] && members[i].block == block
  }

  method AllFit(problem: Problem, o: Occupancy, b: Books<TaskKey>, members: seq<Task>, ghost ms: seq<Spec>, ghost tasks: set<Task>, ghost block: Id,
                cell: seq<Id>, double: bool)
    returns (ok: bool)
    requires AreMembers(members, ms, tasks, block)
    ensures ok <==> forall i | 0 <= i < |ms| :: MemberFits(problem, o, b, ms[i], cell, double)
  {
    hide MemberFits;
    ok := true;
    for k := 0 to |members|
      invariant ok <==> forall i | 0 <= i < k :: MemberFits(problem, o, b, ms[i], cell, double)
    {
      ok := ok && MemberFits(problem, o, b, members[k].spec, cell, double);
    }
  }

  /** What a successful round does: one cell, one lesson for every member. */
  ghost predicate RoundDone(problem: Problem, before: Books<TaskKey>, after: Books<TaskKey>, ms: seq<Spec>, block: Id, cell: seq<Id>, double: bool) {
    && after.placements == before.placements + Round(problem, ms, block, cell, double)
    && Charged(before, after, ms, |cell|, double) && |cell| == if double then 2 else 1
  }

  /** `placeParallelMembers`: the first cell, in random order, in which every member can be placed. */
  method PlaceParallel(problem: Problem, state: State<TaskKey>, ghost specs: seq<Spec>, ghost tasks: set<Task>, members: seq<Task>, ghost ms: seq<Spec>,
                       ghost block: Id, cells: seq<seq<Id>>, double: bool)
    returns (placed: bool, ghost where: seq<Id>)
    requires GoodTasks(problem, specs) && Sound(problem, specs, state.occupancy, state.books) && Linked(tasks, specs, state.books)
    requires AreMembers(members, ms, tasks, block) && Parallel(problem, ms, block) && Cellular(problem, cells, if double then 2 else 1)
    requires Roomy(problem, ms, block) && WithinUsers(problem, state.books.placements, block)
    requires !double ==> forall i | 0 <= i < |ms| :: Left(state.books.doubles, ms[i].key) == 0
    requires forall i | 0 <= i < |ms| :: TagFits(problem, block, ms[i].group)
    modifies state`books, state`occupancy, members`remaining, members`doubles
    ensures Sound(problem, specs, state.occupancy, state.books) && Linked(tasks, specs, state.books) && AreMembers(members, ms, tasks, block)
    ensures placed ==> RoundDone(problem, old(state.books), state.books, ms, block, where, double)
    ensures placed ==> forall i | 0 <= i < |ms| :: WantsLesson(old(state.books), ms[i], double)
    ensures !placed ==> state.books == old(state.books) && NoRoundFits(problem, state.occupancy, state.books, ms, cells, double)
  {
    hide *;
    var order := Shuffle(cells);
    ShuffledCells(problem, cells, order, if double then 2 else 1);
    OrderedCells(problem, order, if double then 2 else 1);
    MembersFacts(members, ms, tasks, specs, block, state.books);
    placed, where := false, [];
    ghost var before, o := state.books, state.occupancy;
    for k := 0 to |order|
      invariant state.occupancy == o && forall j | 0 <= j < k :: !RoundFits(problem, o, before, ms, order[j], double)
      invariant state.books == before && Sound(problem, specs, state.occupancy, state.books) && Linked(tasks, specs, state.books)
      invariant AreMembers(members, ms, tasks, block)
    {
      var ok := AllFit(problem, state.occupancy, state.books, members, ms, tasks, block, order[k], double);
      RoundFitsExactly(problem, o, before, ms, order[k], double);
      if ok {
        MembersReady(problem, specs, state.occupancy, before, ms, block, order[k], double);
        CellIsDistinct(problem, order[k], if double then 2 else 1);
        MembersFacts(members, ms, tasks, specs, block, before);
        where := order[k];
        AllWanted(problem, ms, Round(problem, ms, block, order[k], double), before, order[k], double);
        PlaceRound(problem, state, specs, tasks, members, ms, block, order[k], double);
        RoundIsDone(problem, before, state.books, ms, block, order[k], double);
        StillMembers(members, ms, tasks, block);
        placed := true;
        return;
      }
    }
    NoneFitsInAnyOrder(problem, o, before, ms, cells, order, double);
  }

  /** The test of a round: every member fits. */
  ghost predicate RoundFits(problem: Problem, o: Occupancy, b: Books<TaskKey>, ms: seq<Spec>, cell: seq<Id>, double: bool) {
    forall i | 0 <= i < |ms| :: MemberFits(problem, o, b, ms[i], cell, double)
  }

  ghost predicate NoRoundFits(problem: Problem, o: Occupancy, b: Books<TaskKey>, ms: seq<Spec>, cells: seq<seq<Id>>, double: bool) {
    forall cell | cell in cells :: !RoundFits(problem, o, b, ms, cell, double)
  }

  lemma RoundFitsExactly(problem: Problem, o: Occupancy, b: Books<TaskKey>, ms: seq<Spec>, cell: seq<Id>, double: bool)
    ensures RoundFits(problem, o, b, ms, cell, double) <==> forall i | 0 <= i < |ms| :: MemberFits(problem, o, b, ms[i], cell, double)
  {
    hide MemberFits;
  }

  lemma NoneFitsInAnyOrder(problem: Problem, o: Occupancy, b: Books<TaskKey>, ms: seq<Spec>, cells: seq<seq<Id>>, order: seq<seq<Id>>, double: bool)
    requires multiset(cells) == multiset(order) && forall j | 0 <= j < |order| :: !RoundFits(problem, o, b, ms, order[j], double)
    ensures NoRoundFits(problem, o, b, ms, cells, double)
  {
    hide RoundFits;
    SameElements(cells, order);
  }

  lemma OrderedCells(problem: Problem, cells: seq<seq<Id>>, size: nat)
    requires Cellular(problem, cells, size)
    ensures forall k | 0 <= k < |cells| :: IsCell(problem, cells[k], size)
  {
    hide IsCell;
    forall k | 0 <= k < |cells|
      ensures IsCell(problem, cells[k], size)
    {
      assert cells[k] in cells;
    }
  }

  lemma CellIsDistinct(problem: Problem, cell: seq<Id>, size: nat)
    requires IsCell(problem, cell, size)
    ensures Distinct(cell)
  {
  }

  lemma MembersFacts(members: seq<Task>, ms: seq<Spec>, tasks: set<Task>, specs: seq<Spec>, block: Id, b: Books<TaskKey>)
    requires AreMembers(members, ms, tasks, block) && Linked(tasks, specs, b)
    ensures |members| == |ms| && forall i | 0 <= i < |ms| :: members[i] in tasks && members[i].spec == ms[i] && members[i].block == block && ms[i] in specs
  {
  }

  lemma StillMembers(members: seq<Task>, ms: seq<Spec>, tasks: set<Task>, block: Id)
    requires |members| == |ms| && forall i | 0 <= i < |ms| :: members[i] in tasks && members[i].spec == ms[i] && members[i].block == block
    ensures AreMembers(members, ms, tasks, block)
  {
  }

  lemma AllWanted(problem: Problem, ms: seq<Spec>, lessons: seq<Placement>, b: Books<TaskKey>, cell: seq<Id>, double: bool)
    requires |lessons| == |ms| && RestReady(problem, ms, lessons, b, cell, 0, double)
    ensures forall i | 0 <= i < |ms| :: WantsLesson(b, ms[i], double)
  {
    hide IsLessonOf, FreeFrom, WantsLesson, Room, GroupFree, BlocksCanRun;
  }

  lemma RoundIsDone(problem: Problem, before: Books<TaskKey>, after: Books<TaskKey>, ms: seq<Spec>, block: Id, cell: seq<Id>, double: bool)
    requires after.placements == before.placements + Round(problem, ms, block, cell, double) && Charged(before, after, ms, |cell|, double)
    requires IsCell(problem, cell, if double then 2 else 1)
    ensures RoundDone(problem, before, after, ms, block, cell, double)
  {
    hide Charged, UsableId;
  }

  // ----- lockstep

  /** A lesson of the block's group takes place in the period. */
  ghost predicate Runs(ps: seq<Placement>, block: Id, group: Id, per: Id) {
    exists p | p in ps :: p.block == block && p.group == group && group != NO_ID && per in p.periods
  }

  ghost predicate Lockstep(ps: seq<Placement>, block: Id, groups: seq<Id>) {
    forall g, h, per | g in groups && h in groups :: Runs(ps, block, g, per) <==> Runs(ps, block, h, per)
  }

  lemma RunsAppend(ps: seq<Placement>, more: seq<Placement>, block: Id, group: Id, per: Id)
    ensures Runs(ps + more, block, group, per) <==> Runs(ps, block, group, per) || Runs(more, block, group, per)
  {
    assert forall p :: p in ps + more <==> p in ps || p in more;
  }

  /** The groups of the members. */
  ghost predicate GroupsOf(ms: seq<Spec>, groups: seq<Id>) {
    |groups| == |ms| && forall i | 0 <= i < |ms| :: ms[i].group == groups[i] && groups[i] != NO_ID && ms[i].key == GroupKey(groups[i])
  }

  lemma RoundRuns(problem: Problem, ms: seq<Spec>, groups: seq<Id>, block: Id, cell: seq<Id>, double: bool, g: Id, per: Id)
    requires GroupsOf(ms, groups) && g in groups
    ensures Runs(Round(problem, ms, block, cell, double), block, g, per) <==> per in cell
  {
    var lessons := Round(problem, ms, block, cell, double);
    var i :| 0 <= i < |groups| && groups[i] == g;
    assert lessons[i] in lessons && lessons[i].group == g && lessons[i].periods == cell;
  }

  /** A round gives every member the same periods. */
  lemma RoundKeepsLockstep(problem: Problem, ps: seq<Placement>, ms: seq<Spec>, groups: seq<Id>, block: Id, cell: seq<Id>, double: bool)
    requires GroupsOf(ms, groups) && Lockstep(ps, block, groups)
    ensures Lockstep(ps + Round(problem, ms, block, cell, double), block, groups)
  {
    var lessons := Round(problem, ms, block, cell, double);
    hide Runs, Round;
    forall g, h, per | g in groups && h in groups
      ensures Runs(ps + lessons, block, g, per) <==> Runs(ps + lessons, block, h, per)
    {
      RunsAppend(ps, lessons, block, g, per);
      RunsAppend(ps, lessons, block, h, per);
      RoundRuns(problem, ms, groups, block, cell, double, g, per);
      RoundRuns(problem, ms, groups, block, cell, double, h, per);
    }
  }

  /** Every block that is run is in lockstep. */
  ghost predicate Stepwise(problem: Problem, ps: seq<Placement>) {
    forall d | d in problem.blocks && Running(problem, d) :: Lockstep(ps, d.id, d.groups)
  }

  /** Lessons of another block leave the runs of a block alone. */
  lemma OtherBlock(ps: seq<Placement>, more: seq<Placement>, block: Id, groups: seq<Id>)
    requires Lockstep(ps, block, groups) && forall p | p in more :: p.block != block
    ensures Lockstep(ps + more, block, groups)
  {
    hide Runs;
    forall g, per | g in groups
      ensures Runs(ps + more, block, g, per) <==> Runs(ps, block, g, per)
    {
      RunsAppend(ps, more, block, g, per);
      NotRun(more, block, g, per);
    }
  }

  lemma NotRun(more: seq<Placement>, block: Id, g: Id, per: Id)
    requires forall p | p in more :: p.block != block
    ensures !Runs(more, block, g, per)
  {
  }

  /** A block in lockstep whose groups have nothing left to place. */
  ghost predicate Locked(b: Books<TaskKey>, d: Block) {
    Lockstep(b.placements, d.id, d.groups) && Exhausted(b, d)
  }

  /** The groups of the block have nothing left to place. */
  ghost predicate Exhausted(b: Books<TaskKey>, d: Block) {
    forall g | g in d.groups :: Left(b.remaining, GroupKey(g)) == 0
  }

  /** Lessons of other groups leave the runs of a group alone. */
  lemma OtherRuns(ps: seq<Placement>, more: seq<Placement>, block: Id, group: Id, per: Id)
    requires forall p | p in more :: p.group != group
    ensures Runs(ps + more, block, group, per) <==> Runs(ps, block, group, per)
  {
    RunsAppend(ps, more, block, group, per);
  }

  /** The lessons added to `mid` are for tasks that it left with demand, and demand only shrinks. */
  ghost predicate Later(mid: Books<TaskKey>, b: Books<TaskKey>) {
    && mid.placements <= b.placements
    && (forall p | p in b.placements[|mid.placements|..] && p.group != NO_ID :: Left(mid.remaining, GroupKey(p.group)) > 0)
    && forall key :: Left(b.remaining, key) <= Left(mid.remaining, key) && (Left(mid.remaining, key) == 0 ==> Left(b.remaining, key) == 0)
  }

  lemma NothingLater(b: Books<TaskKey>)
    ensures Later(b, b)
  {
    assert b.placements[|b.placements|..] == [];
  }

  lemma LessonLater(problem: Problem, mid: Books<TaskKey>, b: Books<TaskKey>, t: Spec, block: Id, periods: seq<Id>, double: bool)
    requires Later(mid, b) && Tidy(t) && WantsLesson(b, t, double)
    ensures Later(mid, Enter(b, TaskLesson(problem, t, block, periods, double), t.key))
  {
    var p := TaskLesson(problem, t, block, periods, double);
    var after := Enter(b, p, t.key);
    var n := |mid.placements|;
    assert after.placements[n..] == b.placements[n..] + [p];
    forall q | q in after.placements[n..] && q.group != NO_ID
      ensures Left(mid.remaining, GroupKey(q.group)) > 0
    {
      if q !in b.placements[n..] {
        assert Left(b.remaining, GroupKey(q.group)) > 0;
      }
    }
  }

  /** Lessons of tasks that still had something to place do not touch a block that is done. */
  lemma StaysLocked(mid: Books<TaskKey>, b: Books<TaskKey>, d: Block)
    requires Locked(mid, d) && Later(mid, b)
    ensures Locked(b, d)
  {
    var more := b.placements[|mid.placements|..];
    assert b.placements == mid.placements + more;
    hide Runs, Left;
    forall g, per | g in d.groups
      ensures Runs(b.placements, d.id, g, per) <==> Runs(mid.placements, d.id, g, per)
    {
      StillRuns(mid, more, d, g, per);
    }
  }

  lemma StillRuns(b: Books<TaskKey>, more: seq<Placement>, d: Block, g: Id, per: Id)
    requires g in d.groups && Left(b.remaining, GroupKey(g)) == 0
    requires forall p | p in more && p.group != NO_ID :: Left(b.remaining, GroupKey(p.group)) > 0
    ensures Runs(b.placements + more, d.id, g, per) <==> Runs(b.placements, d.id, g, per)
  {
    hide Left;
    if g != NO_ID {
      OtherRuns(b.placements, more, d.id, g, per);
    }
  }

  // ----- a parallel block

  method BlockHasRemaining(members: seq<Task>, ghost ms: seq<Spec>, ghost tasks: set<Task>, ghost specs: seq<Spec>, ghost block: Id, ghost b: Books<TaskKey>)
    returns (some: bool)
    requires AreMembers(members, ms, tasks, block) && Linked(tasks, specs, b)
    ensures some <==> exists i | 0 <= i < |ms| :: Left(b.remaining, ms[i].key) > 0
  {
    some := false;
    for k := 0 to |members|
      invariant some <==> exists i | 0 <= i < k :: Left(b.remaining, ms[i].key) > 0
    {
      assert Follows(members[k], b);
      some := some || members[k].remaining > 0;
    }
  }

  method BlockNeedsDouble(members: seq<Task>, ghost ms: seq<Spec>, ghost tasks: set<Task>, ghost specs: seq<Spec>, ghost block: Id, ghost b: Books<TaskKey>)
    returns (some: bool)
    requires AreMembers(members, ms, tasks, block) && Linked(tasks, specs, b)
    ensures some <==> exists i | 0 <= i < |ms| :: Left(b.doubles, ms[i].key) > 0
  {
    some := false;
    for k := 0 to |members|
      invariant some <==> exists i | 0 <= i < k :: Left(b.doubles, ms[i].key) > 0
    {
      assert Follows(members[k], b);
      some := some || members[k].doubles > 0;
    }
  }

  lemma NaturalCounters(problem: Problem, specs: seq<Spec>, o: Occupancy, b: Books<TaskKey>, ms: seq<Spec>)
    requires Sound(problem, specs, o, b) && forall i | 0 <= i < |ms| :: ms[i] in specs
    ensures forall i | 0 <= i < |ms| :: Left(b.doubles, ms[i].key) >= 0 && Left(b.remaining, ms[i].key) >= 0
  {
    hide Mirrors, Exclusive, LegalTaskLesson, Conserved, Worked, Given, DoublesKept;
  }

  /** All lessons so far belong to other blocks. */
  ghost predicate NoLessonsOf(ps: seq<Placement>, block: Id) {
    forall p | p in ps :: p.block != block
  }

  lemma NobodyRuns(ps: seq<Placement>, block: Id, groups: seq<Id>)
    requires NoLessonsOf(ps, block)
    ensures Lockstep(ps, block, groups)
  {
  }

  /** Nobody but the members pays. */
  ghost predicate OnlyFor(before: Books<TaskKey>, after: Books<TaskKey>, ms: seq<Spec>) {
    forall key | !HasKey(ms, key) ::
      Left(after.remaining, key) == Left(before.remaining, key) && Left(after.doubles, key) == Left(before.doubles, key)
  }

  /** Everything the rounds of a block keep: its groups run in lockstep, its lessons are the only ones, and nobody else pays. */
  ghost predicate BlockInvariant(start: Books<TaskKey>, b: Books<TaskKey>, ms: seq<Spec>, groups: seq<Id>, block: Id) {
    && Lockstep(b.placements, block, groups) && start.placements <= b.placements
    && (forall p | p in b.placements[|start.placements|..] :: p.block == block) && OnlyFor(start, b, ms)
  }

  lemma RoundStep(problem: Problem, start: Books<TaskKey>, b: Books<TaskKey>, after: Books<TaskKey>, ms: seq<Spec>, groups: seq<Id>, block: Id,
                  cell: seq<Id>, double: bool)
    requires BlockInvariant(start, b, ms, groups, block) && GroupsOf(ms, groups)
    requires RoundDone(problem, b, after, ms, block, cell, double) && |ms| > 0
    ensures BlockInvariant(start, after, ms, groups, block)
    ensures Left(after.remaining, ms[0].key) < Left(b.remaining, ms[0].key)
  {
    RoundKeepsLockstep(problem, b.placements, ms, groups, block, cell, double);
    hide Lockstep, Left;
    assert HasKey(ms, ms[0].key);
    var lessons, n := Round(problem, ms, block, cell, double), |start.placements|;
    assert after.placements[n..] == b.placements[n..] + lessons;
    forall p | p in after.placements[n..]
      ensures p.block == block
    {
      assert p in b.placements[n..] || p in lessons;
    }
    hide HasKey;
  }

  lemma RoundShrinks(problem: Problem, specs: seq<Spec>, b: Books<TaskKey>, after: Books<TaskKey>, ms: seq<Spec>, block: Id, cell: seq<Id>, double: bool)
    requires RoundDone(problem, b, after, ms, block, cell, double) && |ms| > 0 && ms[0] in specs
    ensures TotalOwed(specs, after.remaining) < TotalOwed(specs, b.remaining)
  {
    hide Round, TotalOwed;
    assert HasKey(ms, ms[0].key);
    forall key: TaskKey
      ensures Left(after.remaining, key) <= Left(b.remaining, key)
      ensures key == ms[0].key ==> Left(after.remaining, key) < Left(b.remaining, key)
    {
    }
    TotalFalls(specs, b.remaining, after.remaining, ms[0].key);
  }

  lemma {:induction false} TotalFalls(specs: seq<Spec>, before: map<TaskKey, int>, after: map<TaskKey, int>, key: TaskKey)
    requires forall k: TaskKey :: Left(after, k) <= Left(before, k)
    requires Left(after, key) < Left(before, key)
    ensures TotalOwed(specs, after) <= TotalOwed(specs, before)
    ensures HasKey(specs, key) ==> TotalOwed(specs, after) < TotalOwed(specs, before)
  {
    if specs != [] {
      var rest, last := specs[..|specs| - 1], specs[|specs| - 1];
      assert specs == rest + [last];
      TotalFalls(rest, before, after, key);
      assert HasKey(specs, key) ==> HasKey(rest, key) || last.key == key;
    }
  }

  /** The loop over one block; `exhausted` when it places everything its members ask for. */
  method RunBlock(problem: Problem, state: State<TaskKey>, ghost specs: seq<Spec>, ghost tasks: set<Task>, members: seq<Task>, ghost ms: seq<Spec>,
                  ghost groups: seq<Id>, ghost block: Id, pairs: seq<seq<Id>>, singles: seq<seq<Id>>, config: Config)
    returns (stop: bool, ghost exhausted: bool)
    requires GoodTasks(problem, specs) && Sound(problem, specs, state.occupancy, state.books) && Linked(tasks, specs, state.books)
    requires AreMembers(members, ms, tasks, block) && Parallel(problem, ms, block) && GroupsOf(ms, groups) && |ms| > 0
    requires Roomy(problem, ms, block) && WithinUsers(problem, state.books.placements, block)
    requires Cellular(problem, pairs, 2) && Cellular(problem, singles, 1) && NoLessonsOf(state.books.placements, block)
    requires forall i | 0 <= i < |ms| :: TagFits(problem, block, ms[i].group)
    modifies state, members`remaining, members`doubles
    ensures Sound(problem, specs, state.occupancy, state.books) && Linked(tasks, specs, state.books) && AreMembers(members, ms, tasks, block)
    ensures BlockInvariant(old(state.books), state.books, ms, groups, block)
    ensures WithinUsers(problem, state.books.placements, block)
    ensures state.timedOut == (old(state.timedOut) || stop)
    ensures exhausted <==> forall i | 0 <= i < |ms| :: Left(state.books.remaining, ms[i].key) == 0
    ensures !stop && !exhausted ==> BlockStuck(problem, state.occupancy, state.books, ms, pairs, singles)
    ensures TotalOwed(specs, state.books.remaining) <= TotalOwed(specs, old(state.books.remaining))
    ensures Used(old(state.iterations), state.iterations, TotalOwed(specs, old(state.books.remaining)) - TotalOwed(specs, state.books.remaining) + 1, config, stop)
  {
    hide *;
    stop, exhausted := false, false;
    ghost var start, i := state.books, state.iterations;
    StartBlock(start, ms, groups, block);
    MembersFacts(members, ms, tasks, specs, block, state.books);
    NaturalCounters(problem, specs, state.occupancy, state.books, ms);
    var more := BlockHasRemaining(members, ms, tasks, specs, block, state.books);
    while more
      invariant Sound(problem, specs, state.occupancy, state.books) && Linked(tasks, specs, state.books) && AreMembers(members, ms, tasks, block)
      invariant BlockInvariant(start, state.books, ms, groups, block)
      invariant WithinUsers(problem, state.books.placements, block)
      invariant state.timedOut == old(state.timedOut) && !stop && !exhausted
      invariant i <= state.iterations <= i + TotalOwed(specs, start.remaining) - TotalOwed(specs, state.books.remaining)
      invariant more <==> exists i | 0 <= i < |ms| :: Left(state.books.remaining, ms[i].key) > 0
      invariant forall i | 0 <= i < |ms| :: Left(state.books.doubles, ms[i].key) >= 0 && Left(state.books.remaining, ms[i].key) >= 0
      decreases Left(state.books.remaining, ms[0].key)
    {
      stop := BudgetExceeded(state, 1, config);
      NowUsed(i, state.iterations, TotalOwed(specs, start.remaining) - TotalOwed(specs, state.books.remaining) + 1, config, stop);
      if stop {
        return;
      }
      var double := BlockNeedsDouble(members, ms, tasks, specs, block, state.books);
      ghost var before := state.books;
      var placed;
      ghost var cell;
      placed, cell := PlaceParallel(problem, state, specs, tasks, members, ms, block, if double then pairs else singles, double);
      if !placed {
        NowBlockStuck(problem, state.occupancy, before, ms, pairs, singles, double);
        return;
      }
      MembersFacts(members, ms, tasks, specs, block, state.books);
      RoundStep(problem, start, before, state.books, ms, groups, block, cell, double);
      RoundShrinks(problem, specs, before, state.books, ms, block, cell, double);
      RoundWithinUsers(problem, before, state.books, ms, block, cell, double);
      NaturalCounters(problem, specs, state.occupancy, state.books, ms);
      more := BlockHasRemaining(members, ms, tasks, specs, block, state.books);
    }
    NowUsed(i, state.iterations, TotalOwed(specs, start.remaining) - TotalOwed(specs, state.books.remaining) + 1, config, stop);
    exhausted := true;
  }

  /** No cell suits the next round: a double while any member needs one, otherwise a single. */
  ghost predicate BlockStuck(problem: Problem, o: Occupancy, b: Books<TaskKey>, ms: seq<Spec>, pairs: seq<seq<Id>>, singles: seq<seq<Id>>) {
    if exists i | 0 <= i < |ms| :: Left(b.doubles, ms[i].key) > 0 then NoRoundFits(problem, o, b, ms, pairs, true)
    else NoRoundFits(problem, o, b, ms, singles, false)
  }

  lemma NowBlockStuck(problem: Problem, o: Occupancy, b: Books<TaskKey>, ms: seq<Spec>, pairs: seq<seq<Id>>, singles: seq<seq<Id>>, double: bool)
    requires double <==> exists i | 0 <= i < |ms| :: Left(b.doubles, ms[i].key) > 0
    requires NoRoundFits(problem, o, b, ms, if double then pairs else singles, double)
    ensures BlockStuck(problem, o, b, ms, pairs, singles)
  {
    hide NoRoundFits, Left;
  }

  lemma StartBlock(b: Books<TaskKey>, ms: seq<Spec>, groups: seq<Id>, block: Id)
    requires NoLessonsOf(b.placements, block)
    ensures BlockInvariant(b, b, ms, groups, block)
  {
    NobodyRuns(b.placements, block, groups);
    hide Lockstep;
    assert b.placements[|b.placements|..] == [];
  }

  // ----- what later blocks leave alone

  /** No other block that is run has a group of this one. */
  ghost predicate OwnGroups(problem: Problem, d: Block) {
    forall e, g | e in problem.blocks && Running(problem, e) && e != d && g in d.groups :: g !in e.groups
  }

  /** A block that was run is exhausted, or no cell suits its next round. */
  ghost predicate Settled(problem: Problem, specs: seq<Spec>, o: Occupancy, b: Books<TaskKey>, d: Block, pairs: seq<seq<Id>>, singles: seq<seq<Id>>) {
    Exhausted(b, d) || forall ms | TasksOf(specs, d, ms) :: BlockStuck(problem, o, b, ms, pairs, singles)
  }

  /** What the rounds of a block change: lessons of the block are added, and only its groups pay. */
  ghost predicate Advanced(before: Books<TaskKey>, after: Books<TaskKey>, d: Block) {
    && before.placements <= after.placements && (forall p | p in after.placements[|before.placements|..] :: p.block == d.id)
    && forall key: TaskKey | !(key.GroupKey? && key.id in d.groups) ::
         Left(after.remaining, key) == Left(before.remaining, key) && Left(after.doubles, key) == Left(before.doubles, key)
  }

  lemma NotAdvanced(b: Books<TaskKey>, d: Block)
    ensures Advanced(b, b, d)
  {
    assert b.placements[|b.placements|..] == [];
  }

  lemma NowAdvanced(before: Books<TaskKey>, after: Books<TaskKey>, ms: seq<Spec>, d: Block)
    requires BlockInvariant(before, after, ms, d.groups, d.id) && GroupsOf(ms, d.groups)
    ensures Advanced(before, after, d) && Lockstep(after.placements, d.id, d.groups)
  {
    hide Lockstep, Left;
    forall key: TaskKey | !(key.GroupKey? && key.id in d.groups)
      ensures !HasKey(ms, key)
    {
    }
    hide HasKey;
  }

  /** Occupancy only grows. */
  ghost predicate Grows(o: Occupancy, after: Occupancy) {
    && o.teachers <= after.teachers && o.cohorts <= after.cohorts && o.learners <= after.learners && o.groups <= after.groups
    && o.resources <= after.resources
  }

  lemma {:induction false} BookingsGrow(kind: Kind, ps: seq<Placement>, more: seq<Placement>)
    ensures Bookings(kind, ps) <= Bookings(kind, ps + more)
    decreases |more|
  {
    hide Keys, Pairs;
    if more == [] {
      assert ps + more == ps;
    } else {
      BookingsAppend(kind, ps, more[0]);
      BookingsGrow(kind, ps + [more[0]], more[1..]);
      assert ps + [more[0]] + more[1..] == ps + more;
      hide Bookings;
    }
  }

  lemma ShownGrows(small: set<(Id, Id)>, large: set<(Id, Id)>, kind: Kind, ps: seq<Placement>, more: seq<Placement>)
    requires Shows(small, kind, ps) && Shows(large, kind, ps + more)
    ensures small <= large
  {
    assert forall p :: p in ps ==> p in ps + more;
    hide Keys;
    forall x | x in small
      ensures x in large
    {
      assert x == (x.0, x.1) && Booked(kind, ps, x.0, x.1);
    }
  }

  lemma MoreLessonsGrow(o: Occupancy, after: Occupancy, ps: seq<Placement>, more: seq<Placement>)
    requires Mirrors(o, ps) && Mirrors(after, ps + more)
    ensures Grows(o, after)
  {
    hide Shows, Bookings;
    ShownGrows(o.teachers, after.teachers, TeacherUse, ps, more);
    ShownGrows(o.cohorts, after.cohorts, CohortUse, ps, more);
    ShownGrows(o.learners, after.learners, LearnerUse, ps, more);
    ShownGrows(o.groups, after.groups, GroupUse, ps, more);
    BookingsGrow(ResourceUse, ps, more);
  }

  /** What has no place cannot be placed later. */
  lemma StillUnplaceable(problem: Problem, o: Occupancy, after: Occupancy, t: Spec, cell: seq<Id>)
    requires Grows(o, after) && CanPlaceTask(problem, after, t, cell)
    ensures CanPlaceTask(problem, o, t, cell)
  {
    hide LocalPeople, OpenFor, Capacity;
    forall per | per in cell
      ensures FreeTaskCell(problem, o, t, per)
    {
      assert FreeTaskCell(problem, after, t, per);
      forall c | c in t.cohorts
        ensures FreeCohort(problem, o, t, c, per)
      {
        assert FreeCohort(problem, after, t, c, per);
      }
      assert o.resources[(t.resource, per)] <= after.resources[(t.resource, per)];
    }
  }

  lemma StillNoRound(problem: Problem, o: Occupancy, after: Occupancy, b: Books<TaskKey>, c: Books<TaskKey>, ms: seq<Spec>, cells: seq<seq<Id>>, double: bool)
    requires Grows(o, after) && NoRoundFits(problem, o, b, ms, cells, double)
    requires forall i | 0 <= i < |ms| ::
               Left(c.remaining, ms[i].key) == Left(b.remaining, ms[i].key) && Left(c.doubles, ms[i].key) == Left(b.doubles, ms[i].key)
    ensures NoRoundFits(problem, after, c, ms, cells, double)
  {
    hide CanPlaceTask, Grows, Left;
    forall cell | cell in cells
      ensures !RoundFits(problem, after, c, ms, cell, double)
    {
      assert !RoundFits(problem, o, b, ms, cell, double);
      var i :| 0 <= i < |ms| && !MemberFits(problem, o, b, ms[i], cell, double);
      if MemberFits(problem, after, c, ms[i], cell, double) {
        StillUnplaceable(problem, o, after, ms[i], cell);
      }
    }
  }

  lemma StillStuck(problem: Problem, o: Occupancy, after: Occupancy, b: Books<TaskKey>, c: Books<TaskKey>, ms: seq<Spec>, pairs: seq<seq<Id>>,
                   singles: seq<seq<Id>>)
    requires Grows(o, after) && BlockStuck(problem, o, b, ms, pairs, singles)
    requires forall i | 0 <= i < |ms| ::
               Left(c.remaining, ms[i].key) == Left(b.remaining, ms[i].key) && Left(c.doubles, ms[i].key) == Left(b.doubles, ms[i].key)
    ensures BlockStuck(problem, after, c, ms, pairs, singles)
  {
    hide NoRoundFits, Grows, Left;
    if exists i | 0 <= i < |ms| :: Left(b.doubles, ms[i].key) > 0 {
      StillNoRound(problem, o, after, b, c, ms, pairs, true);
    } else {
      StillNoRound(problem, o, after, b, c, ms, singles, false);
    }
  }

  /** The counters of the block's groups are as they were. */
  ghost predicate SameCounters(b: Books<TaskKey>, c: Books<TaskKey>, e: Block) {
    forall g | g in e.groups ::
      Left(c.remaining, GroupKey(g)) == Left(b.remaining, GroupKey(g)) && Left(c.doubles, GroupKey(g)) == Left(b.doubles, GroupKey(g))
  }

  lemma OthersKeep(b: Books<TaskKey>, c: Books<TaskKey>, e: Block, d: Block)
    requires Advanced(b, c, d) && forall g | g in e.groups :: g !in d.groups
    ensures SameCounters(b, c, e) && |b.placements| <= |c.placements| && c.placements == b.placements + c.placements[|b.placements|..]
  {
    hide Left;
  }

  lemma MembersKeep(specs: seq<Spec>, b: Books<TaskKey>, c: Books<TaskKey>, e: Block, ms: seq<Spec>)
    requires SameCounters(b, c, e) && TasksOf(specs, e, ms)
    ensures forall i | 0 <= i < |ms| ::
              Left(c.remaining, ms[i].key) == Left(b.remaining, ms[i].key) && Left(c.doubles, ms[i].key) == Left(b.doubles, ms[i].key)
  {
    hide Left;
    assert forall i | 0 <= i < |ms| :: e.groups[i] in e.groups;
  }

  /** The rounds of another block leave a settled block settled. */
  lemma StaysSettled(problem: Problem, specs: seq<Spec>, o: Occupancy, after: Occupancy, b: Books<TaskKey>, c: Books<TaskKey>, e: Block, d: Block,
                     pairs: seq<seq<Id>>, singles: seq<seq<Id>>)
    requires Settled(problem, specs, o, b, e, pairs, singles) && Advanced(b, c, d) && Mirrors(o, b.placements) && Mirrors(after, c.placements)
    requires forall g | g in e.groups :: g !in d.groups
    ensures Settled(problem, specs, after, c, e, pairs, singles)
  {
    OthersKeep(b, c, e, d);
    MoreLessonsGrow(o, after, b.placements, c.placements[|b.placements|..]);
    hide Mirrors, Grows, BlockStuck, Left, Advanced, TasksOf;
    if !Exhausted(b, e) {
      hide SameCounters, Exhausted;
      forall ms | TasksOf(specs, e, ms)
        ensures BlockStuck(problem, after, c, ms, pairs, singles)
      {
        MembersKeep(specs, b, c, e, ms);
        StillStuck(problem, o, after, b, c, ms, pairs, singles);
      }
    }
  }

  /** There is only one list of tasks for a block. */
  lemma SameMembers(specs: seq<Spec>, d: Block, ms: seq<Spec>, ns: seq<Spec>)
    requires DistinctKeys(specs) && TasksOf(specs, d, ms) && TasksOf(specs, d, ns)
    ensures ms == ns
  {
    forall i | 0 <= i < |ms|
      ensures ms[i] == ns[i]
    {
      SameKey(specs, ms[i]);
    }
  }

  lemma NowSettled(problem: Problem, specs: seq<Spec>, o: Occupancy, b: Books<TaskKey>, d: Block, ms: seq<Spec>, pairs: seq<seq<Id>>, singles: seq<seq<Id>>,
                   exhausted: bool)
    requires GoodTasks(problem, specs) && TasksOf(specs, d, ms)
    requires exhausted <==> forall i | 0 <= i < |ms| :: Left(b.remaining, ms[i].key) == 0
    requires !exhausted ==> BlockStuck(problem, o, b, ms, pairs, singles)
    ensures Settled(problem, specs, o, b, d, pairs, singles)
  {
    hide BlockStuck, Left, Tidy, MembersOfCohorts, DistinctKeys;
    if exhausted {
      forall g | g in d.groups
        ensures Left(b.remaining, GroupKey(g)) == 0
      {
        var i :| 0 <= i < |d.groups| && d.groups[i] == g;
        assert ms[i].key == GroupKey(g);
      }
    } else {
      forall ns | TasksOf(specs, d, ns)
        ensures BlockStuck(problem, o, b, ns, pairs, singles)
      {
        SameMembers(specs, d, ms, ns);
      }
    }
  }

  // ----- all blocks

  /** Two groups can run at the same time: other people. */
  ghost predicate CanRunTogether(problem: Problem, g: Group, h: Group) {
    Together(problem, TaskLesson(problem, GroupSpec(g), NO_ID, [], false), TaskLesson(problem, GroupSpec(h), NO_ID, [], false))
  }

  /** The members of every active block can run at the same time; and a resource that two of them share has the capacity for all
      groups that use it in this block and the blocks before it. */
  ghost predicate BlocksCanRun(problem: Problem) {
    forall d, i, j, g, h | d in problem.blocks && ActiveBlock(problem, d) && 0 <= i < j < |d.groups|
                           && g in problem.groups && h in problem.groups && g.id == d.groups[i] && h.id == d.groups[j] ::
      && CanRunTogether(problem, g, h)
      && (g.resource == h.resource && g.resource != NO_ID ==> |Users(problem, d.id, g.resource)| <= Capacity(problem, g.resource))
  }

  /** The tasks of a block's groups, in the order of the block. */
  ghost predicate TasksOf(specs: seq<Spec>, d: Block, ms: seq<Spec>) {
    |ms| == |d.groups| && forall i | 0 <= i < |ms| :: ms[i] in specs && ms[i].key == GroupKey(d.groups[i])
  }

  lemma AnyBlock(problem: Problem, s: Spec, t: Spec, block: Id)
    requires Together(problem, TaskLesson(problem, s, NO_ID, [], false), TaskLesson(problem, t, NO_ID, [], false))
    ensures Together(problem, TaskLesson(problem, s, block, [], false), TaskLesson(problem, t, block, [], false))
  {
    hide Keys;
    KeysAnyBlock(problem, s, block, CohortUse);
    KeysAnyBlock(problem, s, block, GroupUse);
    KeysAnyBlock(problem, t, block, CohortUse);
    KeysAnyBlock(problem, t, block, GroupUse);
  }

  lemma KeysAnyBlock(problem: Problem, t: Spec, block: Id, kind: Kind)
    ensures Keys(kind, TaskLesson(problem, t, block, [], false)) == Keys(kind, TaskLesson(problem, t, NO_ID, [], false))
  {
  }

  /** A task of a group is made from the group of that name. */
  lemma GroupOf(problem: Problem, specs: seq<Spec>, t: Spec, id: Id) returns (g: Group)
    requires t in specs && t.key == GroupKey(id) && forall u | u in specs :: Origin(problem, u)
    ensures g in problem.groups && g.id == id && t == GroupSpec(g) && Shares(problem, g)
  {
    hide UniqueIds, Shares, Schedule, Rest, RestDoubles;
    assert Origin(problem, t);
    g :| g in problem.groups && Shares(problem, g) && t == GroupSpec(g);
  }

  lemma BlockIsParallel(problem: Problem, specs: seq<Spec>, d: Block, ms: seq<Spec>)
    requires d in problem.blocks && Running(problem, d) && TasksOf(specs, d, ms) && Distinct(d.groups)
    requires forall u | u in specs :: Origin(problem, u)
    requires forall i | 0 <= i < |ms| :: ms[i].group == d.groups[i] && d.groups[i] != NO_ID
    ensures Parallel(problem, ms, d.id) && Roomy(problem, ms, d.id)
  {
    hide Together, UniqueIds, Origin, Users, Capacity;
    forall i, j | 0 <= i < j < |ms| && BlocksCanRun(problem)
      ensures Together(problem, TaskLesson(problem, ms[i], d.id, [], false), TaskLesson(problem, ms[j], d.id, [], false))
      ensures ms[i].resource == ms[j].resource && ms[i].resource != NO_ID ==>
                |Users(problem, d.id, ms[i].resource)| <= Capacity(problem, ms[i].resource)
    {
      var g := GroupOf(problem, specs, ms[i], d.groups[i]);
      var h := GroupOf(problem, specs, ms[j], d.groups[j]);
      assert CanRunTogether(problem, g, h);
      AnyBlock(problem, ms[i], ms[j], d.id);
    }
    forall i | 0 <= i < |ms|
      ensures ms[i].group in Users(problem, d.id, ms[i].resource)
    {
      var g := GroupOf(problem, specs, ms[i], d.groups[i]);
      assert g.id in d.groups;
      UserIsListed(problem, d, g);
    }
  }

  lemma UserIsListed(problem: Problem, d: Block, g: Group)
    requires d in problem.blocks && Running(problem, d) && g in problem.groups && g.id in d.groups
    ensures g.id in Users(problem, d.id, g.resource)
  {
  }

  /** Later blocks let in no fewer groups. */
  lemma MoreUsers(problem: Problem, ps: seq<Placement>, limit: Id, later: Id)
    requires WithinUsers(problem, ps, limit) && limit <= later
    ensures WithinUsers(problem, ps, later)
  {
    forall p | p in ps
      ensures p.group in Users(problem, later, p.resource)
    {
      assert p.group in Users(problem, limit, p.resource);
    }
  }

  ghost predicate InOrderOfId(s: seq<Block>) {
    forall i, j | 0 <= i < j < |s| :: s[i].id <= s[j].id
  }

  lemma {:induction false} InsertBlockOrder(b: Block, s: seq<Block>)
    requires InOrderOfId(s)
    ensures InOrderOfId(InsertBlock(b, s))
  {
    if s != [] && b.id > s[0].id {
      var rest := InsertBlock(b, s[1..]);
      InsertBlockOrder(b, s[1..]);
      forall c | c in rest
        ensures s[0].id <= c.id
      {
        assert c in multiset(rest);
        assert c == b || c in s[1..];
      }
      ConsInOrder(s[0], rest);
    }
  }

  lemma ConsInOrder(b: Block, s: seq<Block>)
    requires InOrderOfId(s) && forall c | c in s :: b.id <= c.id
    ensures InOrderOfId([b] + s)
  {
    var t := [b] + s;
    forall i, j | 0 <= i < j < |t|
      ensures t[i].id <= t[j].id
    {
      assert t[j] == s[j - 1] && s[j - 1] in s;
    }
  }

  lemma {:induction false} SortBlocksOrder(s: seq<Block>)
    ensures InOrderOfId(SortBlocks(s))
  {
    if s != [] {
      SortBlocksOrder(s[1..]);
      InsertBlockOrder(s[0], SortBlocks(s[1..]));
    }
  }

  function InsertBlock(b: Block, s: seq<Block>): (r: seq<Block>)
    ensures multiset(r) == multiset{b} + multiset(s)
  {
    if s == [] || b.id <= s[0].id then [b] + s
    else
      assert s == [s[0]] + s[1..];
      [s[0]] + InsertBlock(b, s[1..])
  }

  /** The library's sort, by identifier. */
  function SortBlocks(s: seq<Block>): (r: seq<Block>)
    ensures multiset(r) == multiset(s)
  {
    if s == [] then []
    else
      assert s == [s[0]] + s[1..];
      InsertBlock(s[0], SortBlocks(s[1..]))
  }

  /** Every task is tagged with a block of its group, if at all. */
  ghost predicate Tagged(problem: Problem, tasks: set<Task>)
    reads tasks`block
  {
    forall t | t in tasks :: t.block == NO_ID || Hosts(problem, t.block, t.spec.group)
  }

  /** The tasks of the block's groups have a tag. */
  ghost predicate TagsGiven(tasks: set<Task>, d: Block)
    reads tasks`block
  {
    forall t | t in tasks && t.spec.group != NO_ID && t.spec.group in d.groups :: t.block != NO_ID
  }

  /** Every task whose group belongs to a block is tagged with one. */
  ghost predicate FullyTagged(problem: Problem, tasks: set<Task>)
    reads tasks`block
  {
    forall t | t in tasks :: TagFits(problem, t.block, t.spec.group)
  }

  /** Gathers the tasks of the block's groups and tags them. */
  method GatherMembers(ghost problem: Problem, d: Block, ghost specs: seq<Spec>, ghost tasks: set<Task>, byGroup: map<Id, Task>) returns (members: seq<Task>, ghost ms: seq<Spec>)
    requires forall g | g in d.groups :: g in byGroup && byGroup[g] in tasks && byGroup[g].spec in specs && byGroup[g].spec.key == GroupKey(g)
    requires forall g | g in d.groups :: Hosts(problem, d.id, byGroup[g].spec.group)
    requires Tagged(problem, tasks) && d.id != NO_ID
    modifies tasks`block
    ensures Tagged(problem, tasks) && (forall g | g in d.groups :: byGroup[g].block == d.id)
    ensures forall t | t in tasks && old(t.block) != NO_ID :: t.block != NO_ID
    ensures AreMembers(members, ms, tasks, d.id) && TasksOf(specs, d, ms)
  {
    hide Hosts;
    members, ms := [], [];
    for k := 0 to |d.groups|
      invariant Tagged(problem, tasks)
      invariant |members| == |ms| == k
      invariant forall t | t in tasks && old(t.block) != NO_ID :: t.block != NO_ID
      invariant forall i | 0 <= i < k :: byGroup[d.groups[i]].block == d.id
      invariant forall i | 0 <= i < k :: members[i] in tasks && members[i].spec == ms[i] && members[i].block == d.id
      invariant forall i | 0 <= i < k :: ms[i] in specs && ms[i].key == GroupKey(d.groups[i])
    {
      assert d.groups[k] in d.groups;
      var task := byGroup[d.groups[k]];
      task.block := d.id;
      members, ms := members + [task], ms + [task.spec];
    }
  }

  /** A gathered block has given its tags. */
  lemma NowGiven(problem: Problem, specs: seq<Spec>, tasks: set<Task>, byGroup: map<Id, Task>, d: Block)
    requires WellIndexed(problem, specs, tasks, byGroup) && OneEach(tasks, specs) && d in problem.blocks && Running(problem, d) && d.id != NO_ID
    requires forall g | g in d.groups :: g in byGroup && byGroup[g].block == d.id
    ensures TagsGiven(tasks, d)
  {
    hide MembersOfCohorts, DistinctKeys, Origin;
    forall t | t in tasks && t.spec.group != NO_ID && t.spec.group in d.groups
      ensures t.block != NO_ID
    {
      assert Tidy(t.spec) && t.spec.key == GroupKey(t.spec.group);
      assert t == byGroup[t.spec.group];
    }
  }

  lemma BlockGroups(problem: Problem, specs: seq<Spec>, d: Block, ms: seq<Spec>)
    requires TasksOf(specs, d, ms) && GoodTasks(problem, specs) && forall g | g in problem.groups :: g.id != NO_ID
    requires forall u | u in specs :: Origin(problem, u)
    ensures GroupsOf(ms, d.groups)
  {
    hide MembersOfCohorts, DistinctKeys, UniqueIds, Shares, Origin;
    forall i | 0 <= i < |ms|
      ensures ms[i].group == d.groups[i] && d.groups[i] != NO_ID
    {
      assert Tidy(ms[i]);
      var g := GroupOf(problem, specs, ms[i], d.groups[i]);
    }
  }

  /** All lessons so far belong to blocks that were dealt with. */
  ghost predicate BlocksBefore(ps: seq<Placement>, blocks: seq<Block>) {
    forall p | p in ps :: exists d | d in blocks :: p.block == d.id
  }

  /** Tasks, by group and by object. */
  ghost predicate WellIndexed(problem: Problem, specs: seq<Spec>, tasks: set<Task>, byGroup: map<Id, Task>) {
    && GoodTasks(problem, specs) && (forall u | u in specs :: Origin(problem, u)) && (forall g | g in problem.groups :: g.id != NO_ID)
    && (forall d | d in problem.blocks :: d.id != NO_ID && Distinct(d.groups))
    && (forall g | g in byGroup :: byGroup[g] in tasks && byGroup[g].spec in specs && byGroup[g].spec.key == GroupKey(g))
    && forall d, g | d in problem.blocks && ActiveBlock(problem, d) && g in d.groups :: g in byGroup
  }

  lemma IndexFacts(problem: Problem, specs: seq<Spec>, tasks: set<Task>, byGroup: map<Id, Task>, d: Block)
    requires WellIndexed(problem, specs, tasks, byGroup) && d in problem.blocks && Running(problem, d)
    ensures GoodTasks(problem, specs) && d.id != NO_ID
    ensures forall g | g in d.groups :: g in byGroup && byGroup[g] in tasks && byGroup[g].spec in specs && byGroup[g].spec.key == GroupKey(g)
    ensures forall g | g in d.groups :: Hosts(problem, d.id, byGroup[g].spec.group)
  {
    hide Origin, DistinctKeys, MembersOfCohorts;
    forall g | g in d.groups
      ensures Hosts(problem, d.id, byGroup[g].spec.group)
    {
      assert Tidy(byGroup[g].spec);
    }
  }

  lemma MembersCanRun(problem: Problem, specs: seq<Spec>, tasks: set<Task>, byGroup: map<Id, Task>, d: Block, ms: seq<Spec>)
    requires WellIndexed(problem, specs, tasks, byGroup) && d in problem.blocks && Running(problem, d)
    requires TasksOf(specs, d, ms)
    ensures Parallel(problem, ms, d.id) && Roomy(problem, ms, d.id) && GroupsOf(ms, d.groups) && |ms| == |d.groups|
    ensures forall i | 0 <= i < |ms| :: TagFits(problem, d.id, ms[i].group)
  {
    hide GoodTasks, Origin, BlocksCanRun, Parallel, Roomy, Running;
    BlockGroups(problem, specs, d, ms);
    forall i | 0 <= i < |ms|
      ensures TagFits(problem, d.id, ms[i].group)
    {
      assert d.groups[i] in d.groups && Hosts(problem, d.id, ms[i].group);
    }
    BlockIsParallel(problem, specs, d, ms);
  }

  /** What is owed has not grown, and the iterations are paid for by what was placed, but for `extra`. */
  ghost predicate Spent(specs: seq<Spec>, before: map<TaskKey, int>, after: map<TaskKey, int>, i: int, j: int, extra: int, config: Config, stop: bool) {
    TotalOwed(specs, after) <= TotalOwed(specs, before) && Used(i, j, TotalOwed(specs, before) - TotalOwed(specs, after) + extra, config, stop)
  }

  lemma NothingSpent(specs: seq<Spec>, before: map<TaskKey, int>, i: int, config: Config)
    ensures Spent(specs, before, before, i, i, 0, config, false)
  {
  }

  lemma NothingSpentYet(specs: seq<Spec>, before: map<TaskKey, int>, i: int, config: Config)
    ensures Spent(specs, before, before, i, i, 1, config, false)
  {
  }

  lemma NowSpent(specs: seq<Spec>, before: map<TaskKey, int>, after: map<TaskKey, int>, i: int, j: int, config: Config, stop: bool)
    requires TotalOwed(specs, after) <= TotalOwed(specs, before)
    requires Used(i, j, TotalOwed(specs, before) - TotalOwed(specs, after) + 1, config, stop)
    ensures Spent(specs, before, after, i, j, 1, config, stop)
  {
  }

  lemma SpentMeans(specs: seq<Spec>, before: map<TaskKey, int>, after: map<TaskKey, int>, j: int, extra: int, config: Config, stop: bool)
    requires Spent(specs, before, after, 0, j, extra, config, stop)
    ensures TotalOwed(specs, after) <= TotalOwed(specs, before) && Used(0, j, TotalOwed(specs, before) - TotalOwed(specs, after) + extra, config, stop)
  {
  }

  lemma SpentMore(problem: Problem, specs: seq<Spec>, a: map<TaskKey, int>, b: map<TaskKey, int>, c: map<TaskKey, int>, i: int, j: int, k: int,
                  extra: int, config: Config, stop: bool)
    requires Spent(specs, a, b, i, j, extra, config, false) && Spent(specs, b, c, j, k, 1, config, stop)
    ensures Spent(specs, a, c, i, k, extra + 1, config, stop)
    ensures extra < |problem.blocks| ==> Spent(specs, a, c, i, k, |problem.blocks|, config, stop)
  {
    hide TotalOwed;
  }

  /** One block, if it is active and has at least two members. */
  method TryBlock(problem: Problem, state: State<TaskKey>, ghost specs: seq<Spec>, ghost tasks: set<Task>, byGroup: map<Id, Task>, d: Block,
                  pairs: seq<seq<Id>>, singles: seq<seq<Id>>, config: Config, ghost before: seq<Block>)
    returns (stop: bool)
    requires WellIndexed(problem, specs, tasks, byGroup) && d in problem.blocks
    requires Sound(problem, specs, state.occupancy, state.books) && Linked(tasks, specs, state.books)
    requires Cellular(problem, pairs, 2) && Cellular(problem, singles, 1)
    requires BlocksBefore(state.books.placements, before) && forall e | e in before :: e.id != d.id
    requires Tagged(problem, tasks) && WithinUsers(problem, state.books.placements, d.id)
    modifies state, tasks
    ensures Tagged(problem, tasks) && WithinUsers(problem, state.books.placements, d.id)
    ensures forall t | t in tasks && old(t.block) != NO_ID :: t.block != NO_ID
    ensures Running(problem, d) ==> TagsGiven(tasks, d) && Lockstep(state.books.placements, d.id, d.groups)
    ensures Sound(problem, specs, state.occupancy, state.books) && Linked(tasks, specs, state.books)
    ensures Advanced(old(state.books), state.books, d) && BlocksBefore(state.books.placements, before + [d])
    ensures !Running(problem, d) ==> state.books == old(state.books) && state.occupancy == old(state.occupancy)
    ensures !stop && Running(problem, d) ==> Settled(problem, specs, state.occupancy, state.books, d, pairs, singles)
    ensures state.timedOut == (old(state.timedOut) || stop)
    ensures Spent(specs, old(state.books.remaining), state.books.remaining, old(state.iterations), state.iterations, 1, config, stop)
  {
    hide *;
    stop := false;
    ghost var start, i := state.books, state.iterations;
    NothingSpentYet(specs, start.remaining, i, config);
    BlocksBeforeMore(start.placements, start.placements, before, d);
    NotAdvanced(start, d);
    RunningMeans(problem, d);
    if !ActiveBlock(problem, d) || |d.groups| < 2 {
      return;
    }
    IndexFacts(problem, specs, tasks, byGroup, d);
    NoneOf(start.placements, before, d.id);
    var members;
    ghost var ms;
    members, ms := GatherMembers(problem, d, specs, tasks, byGroup);
    OneObjectEach(tasks, specs, start);
    NowGiven(problem, specs, tasks, byGroup, d);
    MembersCanRun(problem, specs, tasks, byGroup, d, ms);
    MembersFacts(members, ms, tasks, specs, d.id, state.books);
    ghost var exhausted;
    stop, exhausted := RunBlock(problem, state, specs, tasks, members, ms, d.groups, d.id, pairs, singles, config);
    NowSpent(specs, start.remaining, state.books.remaining, i, state.iterations, config, stop);
    NowAdvanced(start, state.books, ms, d);
    AddedBlock(start, state.books, d, before);
    if !stop {
      NowSettled(problem, specs, state.occupancy, state.books, d, ms, pairs, singles, exhausted);
    }
  }

  lemma OneObjectEach(tasks: set<Task>, specs: seq<Spec>, b: Books<TaskKey>)
    requires Linked(tasks, specs, b)
    ensures OneEach(tasks, specs)
  {
  }

  lemma AddedBlock(start: Books<TaskKey>, b: Books<TaskKey>, d: Block, before: seq<Block>)
    requires Advanced(start, b, d) && BlocksBefore(start.placements, before)
    ensures BlocksBefore(b.placements, before + [d])
  {
    hide BlocksBefore;
    BlocksBeforeMore(start.placements, b.placements, before, d);
  }

  lemma RunningMeans(problem: Problem, d: Block)
    ensures Running(problem, d) <==> ActiveBlock(problem, d) && |d.groups| >= 2
  {
  }

  lemma BlocksBeforeMore(start: seq<Placement>, ps: seq<Placement>, before: seq<Block>, d: Block)
    requires BlocksBefore(start, before) && start <= ps && forall p | p in ps[|start|..] :: p.block == d.id
    ensures BlocksBefore(ps, before + [d])
  {
    assert ps == start + ps[|start|..];
    forall p | p in ps
      ensures exists e | e in before + [d] :: p.block == e.id
    {
      if p in start {
        var e :| e in before && p.block == e.id;
        assert e in before + [d];
      } else {
        assert p in ps[|start|..] && d in before + [d];
      }
    }
  }

  lemma NoneOf(ps: seq<Placement>, before: seq<Block>, block: Id)
    requires BlocksBefore(ps, before) && forall e | e in before :: e.id != block
    ensures NoLessonsOf(ps, block)
  {
  }

  /** What holds of the blocks that were dealt with. */
  ghost predicate BlocksDone(problem: Problem, specs: seq<Spec>, tasks: set<Task>, o: Occupancy, b: Books<TaskKey>, blocks: seq<Block>,
                             pairs: seq<seq<Id>>, singles: seq<seq<Id>>)
    reads tasks`block
  {
    && (forall d | d in blocks && Running(problem, d) :: TagsGiven(tasks, d))
    && forall d | d in blocks && Running(problem, d) && OwnGroups(problem, d) :: Settled(problem, specs, o, b, d, pairs, singles)
  }

  /** One more block leaves every other block in lockstep. */
  lemma StaysStepwise(problem: Problem, b: Books<TaskKey>, c: Books<TaskKey>, d: Block)
    requires GroupsNamed(problem) && d in problem.blocks && Stepwise(problem, b.placements) && Advanced(b, c, d)
    requires Running(problem, d) ==> Lockstep(c.placements, d.id, d.groups)
    ensures Stepwise(problem, c.placements)
  {
    var more := c.placements[|b.placements|..];
    assert c.placements == b.placements + more;
    hide Lockstep, Running, Left;
    forall e | e in problem.blocks && Running(problem, e)
      ensures Lockstep(c.placements, e.id, e.groups)
    {
      if e.id != d.id {
        OtherBlock(b.placements, more, e.id, e.groups);
      } else {
        SameBlock(problem, d, e);
      }
    }
  }

  lemma SameBlock(problem: Problem, d: Block, e: Block)
    requires GroupsNamed(problem) && d in problem.blocks && e in problem.blocks && d.id == e.id
    ensures d == e
  {
    var i :| 0 <= i < |problem.blocks| && problem.blocks[i] == d;
    var j :| 0 <= j < |problem.blocks| && problem.blocks[j] == e;
  }

  /** One more block, and the others stay settled. */
  lemma AllSettled(problem: Problem, specs: seq<Spec>, o: Occupancy, after: Occupancy, b: Books<TaskKey>, c: Books<TaskKey>, blocks: seq<Block>, d: Block,
                   pairs: seq<seq<Id>>, singles: seq<seq<Id>>)
    requires d in problem.blocks && (forall e | e in blocks :: e in problem.blocks && e.id != d.id)
    requires Advanced(b, c, d) && Mirrors(o, b.placements) && Mirrors(after, c.placements)
    requires forall e | e in blocks && Running(problem, e) && OwnGroups(problem, e) :: Settled(problem, specs, o, b, e, pairs, singles)
    requires Running(problem, d) ==> Settled(problem, specs, after, c, d, pairs, singles)
    requires !Running(problem, d) ==> c == b && after == o
    ensures forall e | e in blocks + [d] && Running(problem, e) && OwnGroups(problem, e) :: Settled(problem, specs, after, c, e, pairs, singles)
  {
    hide Settled, Advanced, Mirrors;
    forall e | e in blocks + [d] && Running(problem, e) && OwnGroups(problem, e)
      ensures Settled(problem, specs, after, c, e, pairs, singles)
    {
      if e != d && Running(problem, d) {
        StaysSettled(problem, specs, o, after, b, c, e, d, pairs, singles);
      }
    }
  }

  lemma AllGiven(problem: Problem, tasks: set<Task>, given: set<Task>, blocks: seq<Block>, d: Block)
    requires given <= tasks && forall t | t in given :: t.block != NO_ID
    requires forall e, t | e in blocks && Running(problem, e) && t in tasks && t.spec.group != NO_ID && t.spec.group in e.groups :: t in given
    requires Running(problem, d) ==> TagsGiven(tasks, d)
    ensures forall e | e in blocks + [d] && Running(problem, e) :: TagsGiven(tasks, e)
  {
  }

  /** After all blocks, every task whose group belongs to one is tagged. */
  lemma NowFullyTagged(problem: Problem, tasks: set<Task>, blocks: seq<Block>)
    requires Tagged(problem, tasks) && multiset(blocks) == multiset(problem.blocks) && forall d | d in blocks && Running(problem, d) :: TagsGiven(tasks, d)
    requires forall d | d in problem.blocks :: d.id != NO_ID
    ensures FullyTagged(problem, tasks)
  {
    SameElements(blocks, problem.blocks);
    hide Running;
    forall t | t in tasks
      ensures TagFits(problem, t.block, t.spec.group)
    {
      if t.block == NO_ID && t.spec.group != NO_ID {
        forall d | d in problem.blocks && Running(problem, d)
          ensures t.spec.group !in d.groups
        {
          assert d in blocks && TagsGiven(tasks, d);
        }
      }
    }
  }

  /** The block phase: lessons stay sound, every block that is run is in lockstep whenever the phase stops, and unless it is cut off
      every block with groups of its own is exhausted or stuck. */
  method RunBlocks(problem: Problem, state: State<TaskKey>, ghost specs: seq<Spec>, ghost tasks: set<Task>, byGroup: map<Id, Task>,
                   pairs: seq<seq<Id>>, singles: seq<seq<Id>>, config: Config)
    returns (stop: bool)
    requires WellIndexed(problem, specs, tasks, byGroup) && GroupsNamed(problem)
    requires Sound(problem, specs, state.occupancy, state.books) && Linked(tasks, specs, state.books) && state.books.placements == []
    requires Cellular(problem, pairs, 2) && Cellular(problem, singles, 1) && Tagged(problem, tasks)
    modifies state, tasks
    ensures Tagged(problem, tasks) && (!stop ==> FullyTagged(problem, tasks))
    ensures Sound(problem, specs, state.occupancy, state.books) && Linked(tasks, specs, state.books)
    ensures Stepwise(problem, state.books.placements) && BlocksBefore(state.books.placements, problem.blocks)
    ensures !stop ==> forall d | d in problem.blocks && Running(problem, d) && OwnGroups(problem, d) ::
                        Settled(problem, specs, state.occupancy, state.books, d, pairs, singles)
    ensures state.timedOut == (old(state.timedOut) || stop)
    ensures Spent(specs, old(state.books.remaining), state.books.remaining, old(state.iterations), state.iterations, |problem.blocks|, config, stop)
  {
    hide *;
    stop := false;
    ghost var start, i := state.books.remaining, state.iterations;
    NothingSpent(specs, start, i, config);
    var blocks := SortBlocks(problem.blocks);
    BlocksInOrder(problem, blocks, state.books);
    SortBlocksOrder(problem.blocks);
    NobodyYet(problem, blocks, state.books);
    NobodyInStep(problem, specs, tasks, state.occupancy, state.books, pairs, singles);
    assert blocks[..0] == [];
    for k := 0 to |blocks|
      invariant Sound(problem, specs, state.occupancy, state.books) && Linked(tasks, specs, state.books)
      invariant Stepwise(problem, state.books.placements) && BlocksBefore(state.books.placements, blocks[..k])
      invariant state.timedOut == old(state.timedOut) && !stop && Tagged(problem, tasks)
      invariant Spent(specs, start, state.books.remaining, i, state.iterations, k, config, stop)
      invariant forall j | k <= j < |blocks| :: WithinUsers(problem, state.books.placements, blocks[j].id)
      invariant BlocksDone(problem, specs, tasks, state.occupancy, state.books, blocks[..k], pairs, singles)
    {
      assert blocks[..k + 1] == blocks[..k] + [blocks[k]];
      ghost var b, o, j := state.books, state.occupancy, state.iterations;
      ghost var given := set t | t in tasks && t.block != NO_ID;
      WereGiven(problem, specs, tasks, given, o, b, blocks[..k], pairs, singles);
      SoundMirrors(problem, specs, o, b);
      stop := TryBlock(problem, state, specs, tasks, byGroup, blocks[k], pairs, singles, config, blocks[..k]);
      SoundMirrors(problem, specs, state.occupancy, state.books);
      LaterUsers(problem, blocks, state.books.placements, k);
      StaysStepwise(problem, b, state.books, blocks[k]);
      SpentMore(problem, specs, start, b.remaining, state.books.remaining, i, j, state.iterations, k, config, stop);
      if stop {
        AmongBlocks(problem, state.books.placements, blocks, k + 1);
        return;
      }
      AllGiven(problem, tasks, given, blocks[..k], blocks[k]);
      AllSettled(problem, specs, o, state.occupancy, b, state.books, blocks[..k], blocks[k], pairs, singles);
      NowDone(problem, specs, tasks, state.occupancy, state.books, blocks[..k + 1], pairs, singles);
    }
    AmongBlocks(problem, state.books.placements, blocks, |blocks|);
    assert blocks[..|blocks|] == blocks;
    AreDone(problem, specs, tasks, state.occupancy, state.books, blocks, pairs, singles);
    IndexedBlocks(problem, specs, tasks, byGroup);
    NowFullyTagged(problem, tasks, blocks);
    SameElements(problem.blocks, blocks);
  }

  lemma NobodyInStep(problem: Problem, specs: seq<Spec>, tasks: set<Task>, o: Occupancy, b: Books<TaskKey>, pairs: seq<seq<Id>>, singles: seq<seq<Id>>)
    requires b.placements == []
    ensures Stepwise(problem, b.placements) && BlocksDone(problem, specs, tasks, o, b, [], pairs, singles)
  {
  }

  lemma WereGiven(problem: Problem, specs: seq<Spec>, tasks: set<Task>, given: set<Task>, o: Occupancy, b: Books<TaskKey>, blocks: seq<Block>,
                  pairs: seq<seq<Id>>, singles: seq<seq<Id>>)
    requires BlocksDone(problem, specs, tasks, o, b, blocks, pairs, singles) && given == set t | t in tasks && t.block != NO_ID
    ensures forall e, t | e in blocks && Running(problem, e) && t in tasks && t.spec.group != NO_ID && t.spec.group in e.groups :: t in given
    ensures forall d | d in blocks && Running(problem, d) && OwnGroups(problem, d) :: Settled(problem, specs, o, b, d, pairs, singles)
  {
    hide Settled, Running, OwnGroups;
    forall e, t | e in blocks && Running(problem, e) && t in tasks && t.spec.group != NO_ID && t.spec.group in e.groups
      ensures t in given
    {
      assert TagsGiven(tasks, e);
    }
  }

  lemma NowDone(problem: Problem, specs: seq<Spec>, tasks: set<Task>, o: Occupancy, b: Books<TaskKey>, blocks: seq<Block>, pairs: seq<seq<Id>>,
                singles: seq<seq<Id>>)
    requires forall d | d in blocks && Running(problem, d) :: TagsGiven(tasks, d)
    requires forall d | d in blocks && Running(problem, d) && OwnGroups(problem, d) :: Settled(problem, specs, o, b, d, pairs, singles)
    ensures BlocksDone(problem, specs, tasks, o, b, blocks, pairs, singles)
  {
    hide TagsGiven, Settled, OwnGroups, Running;
  }

  lemma AreDone(problem: Problem, specs: seq<Spec>, tasks: set<Task>, o: Occupancy, b: Books<TaskKey>, blocks: seq<Block>, pairs: seq<seq<Id>>,
                singles: seq<seq<Id>>)
    requires BlocksDone(problem, specs, tasks, o, b, blocks, pairs, singles)
    ensures forall d | d in blocks && Running(problem, d) :: TagsGiven(tasks, d)
    ensures forall d | d in blocks && Running(problem, d) && OwnGroups(problem, d) :: Settled(problem, specs, o, b, d, pairs, singles)
  {
    hide TagsGiven, Settled, OwnGroups, Running;
  }

  lemma IndexedBlocks(problem: Problem, specs: seq<Spec>, tasks: set<Task>, byGroup: map<Id, Task>)
    requires WellIndexed(problem, specs, tasks, byGroup)
    ensures forall d | d in problem.blocks :: d.id != NO_ID
  {
    hide GoodTasks, Origin;
  }

  lemma AmongBlocks(problem: Problem, ps: seq<Placement>, blocks: seq<Block>, k: nat)
    requires k <= |blocks| && BlocksBefore(ps, blocks[..k]) && multiset(blocks) == multiset(problem.blocks)
    ensures BlocksBefore(ps, problem.blocks)
  {
    SameElements(blocks, problem.blocks);
    forall p | p in ps
      ensures exists d | d in problem.blocks :: p.block == d.id
    {
      var d :| d in blocks[..k] && p.block == d.id;
      assert d in blocks;
    }
  }

  lemma NobodyYet(problem: Problem, blocks: seq<Block>, b: Books<TaskKey>)
    requires b.placements == []
    ensures forall j | 0 <= j < |blocks| :: WithinUsers(problem, b.placements, blocks[j].id)
  {
  }

  lemma LaterUsers(problem: Problem, blocks: seq<Block>, ps: seq<Placement>, k: nat)
    requires k < |blocks| && InOrderOfId(blocks) && WithinUsers(problem, ps, blocks[k].id)
    ensures forall j | k <= j < |blocks| :: WithinUsers(problem, ps, blocks[j].id)
  {
    hide WithinUsers;
    forall j | k <= j < |blocks|
      ensures WithinUsers(problem, ps, blocks[j].id)
    {
      MoreUsers(problem, ps, blocks[k].id, blocks[j].id);
    }
  }

  lemma BlocksInOrder(problem: Problem, blocks: seq<Block>, b: Books<TaskKey>)
    requires GroupsNamed(problem) && multiset(blocks) == multiset(problem.blocks) && b.placements == []
    ensures forall k | 0 <= k < |blocks| :: blocks[k] in problem.blocks && forall e | e in blocks[..k] :: e.id != blocks[k].id
    ensures BlocksBefore(b.placements, []) && |blocks| == |problem.blocks|
  {
    SameElements(problem.blocks, blocks);
    assert |multiset(blocks)| == |blocks|;
    assert Distinct(problem.blocks);
    DistinctPermutation(problem.blocks, blocks);
    forall k, e | 0 <= k < |blocks| && e in blocks[..k]
      ensures e.id != blocks[k].id
    {
      assert e in problem.blocks && blocks[k] in problem.blocks && e != blocks[k];
    }
  }

  // ----- every task on its own

  /** The periods that all tasks still have to place. */
  function TotalOwed(specs: seq<Spec>, remaining: map<TaskKey, int>): int {
    if specs == [] then 0 else TotalOwed(specs[..|specs| - 1], remaining) + Left(remaining, specs[|specs| - 1].key)
  }

  lemma {:induction false} TotalSpend(specs: seq<Spec>, remaining: map<TaskKey, int>, key: TaskKey, spent: int)
    requires DistinctKeys(specs)
    ensures TotalOwed(specs, remaining[key := Left(remaining, key) - spent])
         == TotalOwed(specs, remaining) - if HasKey(specs, key) then spent else 0
  {
    if specs != [] {
      var rest, last := specs[..|specs| - 1], specs[|specs| - 1];
      assert specs == rest + [last];
      LastKeyIsNew(specs);
      hide DistinctKeys;
      TotalSpend(rest, remaining, key, spent);
      assert HasKey(specs, key) <==> HasKey(rest, key) || last.key == key by {
        assert forall m :: m in specs <==> m in rest || m == last;
      }
    }
  }

  lemma {:induction false} TotalNatural(specs: seq<Spec>, b: Books<TaskKey>)
    requires Accounted(specs, b)
    ensures TotalOwed(specs, b.remaining) >= 0
  {
    if specs != [] {
      assert specs == specs[..|specs| - 1] + [specs[|specs| - 1]];
      TotalNatural(specs[..|specs| - 1], b);
    }
  }

  lemma TotalShrinks(problem: Problem, specs: seq<Spec>, b: Books<TaskKey>, t: Spec, p: Placement)
    requires GoodTasks(problem, specs) && t in specs && p.periods != []
    ensures TotalOwed(specs, Enter(b, p, t.key).remaining) < TotalOwed(specs, b.remaining)
  {
    hide Tidy, MembersOfCohorts, DistinctKeys;
    TotalSpend(specs, b.remaining, t.key, |p.periods|);
    assert HasKey(specs, t.key);
  }

  lemma SoundTotals(problem: Problem, specs: seq<Spec>, o: Occupancy, b: Books<TaskKey>)
    requires Sound(problem, specs, o, b)
    ensures TotalOwed(specs, b.remaining) >= 0
  {
    hide Mirrors, Exclusive, LegalTaskLesson, Conserved, Accounted, Worked, Given, DoublesKept;
    TotalNatural(specs, b);
  }

  /** The lesson is placed, the outstanding demand shrinks, and the lesson is for a task that still had demand. */
  lemma PlacedFacts(problem: Problem, specs: seq<Spec>, o: Occupancy, b: Books<TaskKey>, t: Spec, block: Id, cell: seq<Id>, double: bool, mid: Books<TaskKey>)
    requires GoodTasks(problem, specs) && Sound(problem, specs, o, b) && t in specs && IsCell(problem, cell, if double then 2 else 1)
    requires CanPlaceTask(problem, o, t, cell) && Later(mid, b) && WantsLesson(b, t, double) && TagFits(problem, block, t.group)
    ensures Ready(problem, b.placements, t, TaskLesson(problem, t, block, cell, double))
    ensures var after := Enter(b, TaskLesson(problem, t, block, cell, double), t.key);
            Later(mid, after) && TotalOwed(specs, after.remaining) < TotalOwed(specs, b.remaining)
  {
    SoundMirrors(problem, specs, o, b);
    assert Tidy(t) && MembersOfCohorts(problem, t) && |cell| > 0;
    hide *;
    FitsIsReady(problem, o, b.placements, t, block, cell, double);
    LessonLater(problem, mid, b, t, block, cell, double);
    LessonSettings(problem, t, block, cell, double);
    TotalShrinks(problem, specs, b, t, TaskLesson(problem, t, block, cell, double));
  }

  ghost predicate FitsNowhere(problem: Problem, o: Occupancy, t: Spec, cells: seq<seq<Id>>) {
    forall cell | cell in cells :: !CanPlaceTask(problem, o, t, cell)
  }

  lemma FitsNowhereInAnyOrder(problem: Problem, o: Occupancy, t: Spec, cells: seq<seq<Id>>, order: seq<seq<Id>>)
    requires multiset(cells) == multiset(order) && forall k | 0 <= k < |order| :: !CanPlaceTask(problem, o, t, order[k])
    ensures FitsNowhere(problem, o, t, cells)
  {
    hide CanPlaceTask;
    SameElements(cells, order);
  }

  /** `placeFirstTask`: the first cell, in random order, in which the task can be placed. */
  method PlaceFirst(problem: Problem, state: State<TaskKey>, ghost specs: seq<Spec>, ghost tasks: set<Task>, task: Task, cells: seq<seq<Id>>, double: bool,
                    ghost mid: Books<TaskKey>)
    returns (placed: bool)
    requires GoodTasks(problem, specs) && Sound(problem, specs, state.occupancy, state.books) && Linked(tasks, specs, state.books) && task in tasks
    requires Cellular(problem, cells, if double then 2 else 1) && WantsLesson(state.books, task.spec, double) && Later(mid, state.books) && TagFits(problem, task.block, task.spec.group)
    modifies state`books, state`occupancy, task`remaining, task`doubles
    ensures Sound(problem, specs, state.occupancy, state.books) && Linked(tasks, specs, state.books) && Later(mid, state.books)
    ensures placed ==> TotalOwed(specs, state.books.remaining) < TotalOwed(specs, old(state.books.remaining))
    ensures placed ==> Left(state.books.remaining, task.spec.key) < Left(old(state.books.remaining), task.spec.key)
    ensures !placed ==> state.books == old(state.books) && state.occupancy == old(state.occupancy)
    ensures !placed ==> FitsNowhere(problem, state.occupancy, task.spec, cells)
  {
    hide *;
    var order := Shuffle(cells);
    ShuffledCells(problem, cells, order, if double then 2 else 1);
    OrderedCells(problem, order, if double then 2 else 1);
    LinkedParts(tasks, specs, state.books, task);
    ghost var before := state.books;
    var o := state.occupancy;
    for k := 0 to |order|
      invariant state.books == before && state.occupancy == o && Linked(tasks, specs, before)
      invariant forall j | 0 <= j < k :: !CanPlaceTask(problem, o, task.spec, order[j])
    {
      if CanPlaceTask(problem, state.occupancy, task.spec, order[k]) {
        PlacedFacts(problem, specs, o, before, task.spec, task.block, order[k], double, mid);
        ReadyParts(problem, before.placements, task.spec, TaskLesson(problem, task.spec, task.block, order[k], double));
        EnteredLeft(problem, before, task.spec, task.block, order[k], double);
        PlaceTask(problem, state, specs, tasks, task, order[k], double);
        return true;
      }
    }
    FitsNowhereInAnyOrder(problem, o, task.spec, cells, order);
    placed := false;
  }

  lemma ReadyParts(problem: Problem, ps: seq<Placement>, m: Spec, p: Placement)
    requires Ready(problem, ps, m, p)
    ensures IsLessonOf(problem, m, p) && FreeFrom(problem, ps, p) && ResourceLeft(problem, ps, p) && FitsIn(problem, ps, p) && p.periods != []
  {
    FreeGroup(problem, ps, p);
    hide FreeFrom, GroupFree, BlocksCanRun, ResourceLeft, LocalPeople, OpenFor, LessonOf, TagFits;
  }

  lemma EnteredLeft(problem: Problem, b: Books<TaskKey>, t: Spec, block: Id, cell: seq<Id>, double: bool)
    requires TaskLesson(problem, t, block, cell, double).periods != []
    ensures Left(Enter(b, TaskLesson(problem, t, block, cell, double), t.key).remaining, t.key) < Left(b.remaining, t.key)
  {
  }

  /** What the task wants fits nowhere. */
  ghost predicate Stuck(problem: Problem, o: Occupancy, b: Books<TaskKey>, t: Spec, pairs: seq<seq<Id>>, singles: seq<seq<Id>>) {
    && (WantsLesson(b, t, true) ==> FitsNowhere(problem, o, t, pairs))
    && (WantsLesson(b, t, false) ==> FitsNowhere(problem, o, t, singles))
  }

  /** The lessons of one kind for one task, until it wants none or none fits. */
  method RunKind(problem: Problem, state: State<TaskKey>, ghost specs: seq<Spec>, ghost tasks: set<Task>, task: Task, cells: seq<seq<Id>>, double: bool,
                 config: Config, ghost mid: Books<TaskKey>)
    returns (stop: bool, progress: bool)
    requires GoodTasks(problem, specs) && Sound(problem, specs, state.occupancy, state.books) && Linked(tasks, specs, state.books) && task in tasks
    requires Cellular(problem, cells, if double then 2 else 1) && Later(mid, state.books) && TagFits(problem, task.block, task.spec.group)
    modifies state, task`remaining, task`doubles
    ensures Sound(problem, specs, state.occupancy, state.books) && Linked(tasks, specs, state.books) && Later(mid, state.books)
    ensures state.timedOut == (old(state.timedOut) || stop)
    ensures progress ==> TotalOwed(specs, state.books.remaining) < TotalOwed(specs, old(state.books.remaining))
    ensures !progress ==> state.books == old(state.books) && state.occupancy == old(state.occupancy)
    ensures !stop && WantsLesson(state.books, task.spec, double) ==> FitsNowhere(problem, state.occupancy, task.spec, cells)
    ensures TotalOwed(specs, state.books.remaining) <= TotalOwed(specs, old(state.books.remaining))
    ensures Used(old(state.iterations), state.iterations, TotalOwed(specs, old(state.books.remaining)) - TotalOwed(specs, state.books.remaining) + 1, config, stop)
  {
    hide *;
    stop, progress := false, false;
    ghost var b, o, i := state.books, state.occupancy, state.iterations;
    while WantsLesson(state.books, task.spec, double)
      invariant Sound(problem, specs, state.occupancy, state.books) && Linked(tasks, specs, state.books) && Later(mid, state.books)
      invariant state.timedOut == old(state.timedOut) && !stop
      invariant progress ==> TotalOwed(specs, state.books.remaining) < TotalOwed(specs, b.remaining)
      invariant !progress ==> state.books == b && state.occupancy == o
      invariant i <= state.iterations <= i + TotalOwed(specs, b.remaining) - TotalOwed(specs, state.books.remaining)
      decreases TotalOwed(specs, state.books.remaining)
    {
      stop := BudgetExceeded(state, 1, config);
      NowUsed(i, state.iterations, TotalOwed(specs, b.remaining) - TotalOwed(specs, state.books.remaining) + 1, config, stop);
      if stop {
        return;
      }
      SoundTotals(problem, specs, state.occupancy, state.books);
      var placed := PlaceFirst(problem, state, specs, tasks, task, cells, double, mid);
      SoundTotals(problem, specs, state.occupancy, state.books);
      if !placed {
        return;
      }
      progress := true;
    }
    NowUsed(i, state.iterations, TotalOwed(specs, b.remaining) - TotalOwed(specs, state.books.remaining) + 1, config, stop);
  }

  /** Both kinds of lessons of one task. */
  method RunTask(problem: Problem, state: State<TaskKey>, ghost specs: seq<Spec>, ghost tasks: set<Task>, task: Task, pairs: seq<seq<Id>>,
                 singles: seq<seq<Id>>, config: Config, ghost mid: Books<TaskKey>)
    returns (stop: bool, progress: bool)
    requires GoodTasks(problem, specs) && Sound(problem, specs, state.occupancy, state.books) && Linked(tasks, specs, state.books) && task in tasks
    requires Cellular(problem, pairs, 2) && Cellular(problem, singles, 1) && Later(mid, state.books) && TagFits(problem, task.block, task.spec.group)
    modifies state, task`remaining, task`doubles
    ensures Sound(problem, specs, state.occupancy, state.books) && Linked(tasks, specs, state.books) && Later(mid, state.books)
    ensures state.timedOut == (old(state.timedOut) || stop)
    ensures progress ==> TotalOwed(specs, state.books.remaining) < TotalOwed(specs, old(state.books.remaining))
    ensures !progress ==> state.books == old(state.books) && state.occupancy == old(state.occupancy)
    ensures !progress && !stop ==> Stuck(problem, state.occupancy, state.books, task.spec, pairs, singles)
    ensures TotalOwed(specs, state.books.remaining) <= TotalOwed(specs, old(state.books.remaining))
    ensures Used(old(state.iterations), state.iterations, TotalOwed(specs, old(state.books.remaining)) - TotalOwed(specs, state.books.remaining) + 2, config, stop)
  {
    hide *;
    ghost var start, i := TotalOwed(specs, state.books.remaining), state.iterations;
    var more;
    stop, progress := RunKind(problem, state, specs, tasks, task, pairs, true, config, mid);
    ghost var o, b, j, middle := state.occupancy, state.books, state.iterations, TotalOwed(specs, state.books.remaining);
    if stop {
      UsedAll(i, j, start - middle + 1, start - middle + 2, config, stop);
      return;
    }
    stop, more := RunKind(problem, state, specs, tasks, task, singles, false, config, mid);
    ghost var end := TotalOwed(specs, state.books.remaining);
    UsedMore(i, j, state.iterations, start - middle + 1, middle - end + 1, start - end + 2, config, stop);
    progress := progress || more;
    if !progress && !stop {
      NowStuck(problem, o, b, task.spec, pairs, singles);
    }
  }

  lemma NowStuck(problem: Problem, o: Occupancy, b: Books<TaskKey>, t: Spec, pairs: seq<seq<Id>>, singles: seq<seq<Id>>)
    requires WantsLesson(b, t, true) ==> FitsNowhere(problem, o, t, pairs)
    requires WantsLesson(b, t, false) ==> FitsNowhere(problem, o, t, singles)
    ensures Stuck(problem, o, b, t, pairs, singles)
  {
  }
}

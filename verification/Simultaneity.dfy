/** When the groups of a block run at the same time: what their demand has to do with it. */
module Simultaneity {
  import opened Model
  import opened Lessons
  import opened Ledger
  import opened AttemptState
  import opened Tasks
  import opened DoubleDemand
  import opened Audience
  import opened AudienceSolver
  import opened AudienceAttempt
  import AudiencePreflight
  import Validator

  /** The groups of the block ask for equally many periods. */
  ghost predicate EvenDemand(problem: Problem, d: Block) {
    forall g, h | g in problem.groups && h in problem.groups && g.id in d.groups && h.id in d.groups :: g.weekly == h.weekly
  }

  /** A block that is run, whose groups are in no other block that is run. */
  ghost predicate Separate(problem: Problem, d: Block) {
    d in problem.blocks && Running(problem, d) && OwnGroups(problem, d)
  }

  /** All lessons of the block's groups carry its tag. */
  lemma OwnTag(problem: Problem, specs: seq<Spec>, o: Occupancy, b: Books<TaskKey>, d: Block, p: Placement)
    requires Sound(problem, specs, o, b) && Separate(problem, d) && p in b.placements && p.group in d.groups && p.group != NO_ID
    ensures p.block == d.id
  {
    hide Sound, WellShaped, LocalPeople, OpenFor, Running;
    var t := LegalHasTask(problem, specs, o, b, p);
    assert TagFits(problem, p.block, p.group);
  }

  /** The periods in which the validator sees the group run are those in which it has lessons. */
  lemma SeenTimes(problem: Problem, specs: seq<Spec>, o: Occupancy, b: Books<TaskKey>, d: Block, g: Id)
    requires Sound(problem, specs, o, b) && Separate(problem, d) && g in d.groups && g != NO_ID
    ensures Validator.GroupPeriods(b.placements, d.id, g) == Times(b.placements, g)
  {
    hide Sound, Separate;
    forall p | p in b.placements && p.group == g
      ensures p.block == d.id
    {
      OwnTag(problem, specs, o, b, d, p);
    }
  }

  /** A group of the block, and its task. */
  lemma MemberTask(problem: Problem, specs: seq<Spec>, order: seq<Id>, d: Block, g: Id) returns (group: Group, t: Spec)
    requires WellFormed(problem) && GroupsNamed(problem) && AudiencePreflight.Feasible(problem) && IsTaskList(problem, specs, order)
    requires Separate(problem, d) && g in d.groups
    ensures group in problem.groups && group.id == g && g != NO_ID && t in specs && t == GroupSpec(group) && t.key == GroupKey(g) && t.group == g
    ensures forall h | h in problem.groups && h.id == g :: h == group
  {
    hide WellFormed, AudiencePreflight.Feasible, IsTaskList, Origin, Tidy, UniqueIds;
    NoObjection(problem, specs, order, AudiencePreflight.BlockGroupMissing);
    TaskListFacts(problem, specs, order);
    assert !AudiencePreflight.BlockObjects(problem, specs, d, AudiencePreflight.BlockGroupMissing);
    assert AudiencePreflight.HasTask(specs, g);
    t :| t in specs && t.key == GroupKey(g);
    group := GroupOf(problem, specs, t, g);
    forall h | h in problem.groups && h.id == g
      ensures h == group
    {
      var i :| 0 <= i < |problem.groups| && problem.groups[i] == h;
      var j :| 0 <= j < |problem.groups| && problem.groups[j] == group;
    }
  }

  /** As many periods as the group asks for, less what it still has to place. */
  lemma SeenTally(problem: Problem, specs: seq<Spec>, order: seq<Id>, o: Occupancy, b: Books<TaskKey>, d: Block, group: Group)
    requires WellFormed(problem) && GroupsNamed(problem) && AudiencePreflight.Feasible(problem) && IsTaskList(problem, specs, order)
    requires Sound(problem, specs, o, b) && Separate(problem, d) && group in problem.groups && group.id in d.groups
    ensures |Validator.GroupPeriods(b.placements, d.id, group.id)| == group.weekly - Left(b.remaining, GroupKey(group.id))
  {
    hide *;
    var g, t := MemberTask(problem, specs, order, d, group.id);
    SeenTimes(problem, specs, o, b, d, group.id);
    GivenTo(problem, specs, o, b, t);
    SpecOf(group);
  }

  lemma GivenTo(problem: Problem, specs: seq<Spec>, o: Occupancy, b: Books<TaskKey>, t: Spec)
    requires Sound(problem, specs, o, b) && t in specs && t.group != NO_ID
    ensures |Times(b.placements, t.group)| + Left(b.remaining, t.key) == t.weekly
  {
    hide Mirrors, Exclusive, LegalTaskLesson, Accounted, Conserved, Worked, Times;
  }

  lemma SpecOf(g: Group)
    ensures GroupSpec(g).weekly == g.weekly && GroupSpec(g).key == GroupKey(g.id)
  {
  }

  /** In step, the groups have spent equally much. */
  lemma InStepIsEven(problem: Problem, specs: seq<Spec>, order: seq<Id>, o: Occupancy, b: Books<TaskKey>, d: Block, g: Group, h: Group)
    requires WellFormed(problem) && GroupsNamed(problem) && AudiencePreflight.Feasible(problem) && IsTaskList(problem, specs, order)
    requires Sound(problem, specs, o, b) && Separate(problem, d) && Validator.InStep(b.placements, d)
    requires g in problem.groups && h in problem.groups && g.id in d.groups && h.id in d.groups
    ensures g.weekly - Left(b.remaining, GroupKey(g.id)) == h.weekly - Left(b.remaining, GroupKey(h.id))
  {
    hide WellFormed, GroupsNamed, AudiencePreflight.Feasible, IsTaskList, Sound, Separate, Validator.GroupPeriods;
    SeenTally(problem, specs, order, o, b, d, g);
    SeenTally(problem, specs, order, o, b, d, h);
  }

  /** A block that is done and in step is one of even demand; so uneven demand is never simultaneous once it is placed. */
  lemma InStepNeedsEvenDemand(problem: Problem, specs: seq<Spec>, order: seq<Id>, o: Occupancy, b: Books<TaskKey>, d: Block)
    requires WellFormed(problem) && GroupsNamed(problem) && AudiencePreflight.Feasible(problem) && IsTaskList(problem, specs, order)
    requires Sound(problem, specs, o, b) && Separate(problem, d) && Exhausted(b, d) && Validator.InStep(b.placements, d)
    ensures EvenDemand(problem, d)
  {
    hide WellFormed, GroupsNamed, AudiencePreflight.Feasible, IsTaskList, Sound, Separate, Validator.InStep, Left;
    forall g, h | g in problem.groups && h in problem.groups && g.id in d.groups && h.id in d.groups
      ensures g.weekly == h.weekly
    {
      InStepIsEven(problem, specs, order, o, b, d, g, h);
    }
  }

  /** The blocks leave a block exhausted exactly when its demand is even and one of its groups has nothing left to place. */
  lemma ExhaustedIff(problem: Problem, specs: seq<Spec>, order: seq<Id>, phase: Phase, d: Block)
    requires WellFormed(problem) && GroupsNamed(problem) && AudiencePreflight.Feasible(problem) && IsTaskList(problem, specs, order)
    requires BlocksLeave(problem, specs, phase) && Separate(problem, d)
    ensures Exhausted(phase.books, d) <==> EvenDemand(problem, d) && exists g | g in d.groups :: Left(phase.books.remaining, GroupKey(g)) == 0
  {
    var b := phase.books;
    assert d.groups[0] in d.groups;
    assert Sound(problem, specs, phase.occupancy, b) && Lockstep(b.placements, d.id, d.groups);
    LockstepIsInStep(b.placements, d);
    hide WellFormed, GroupsNamed, AudiencePreflight.Feasible, IsTaskList, Sound, Separate, Validator.InStep, Left, BlocksLeave, Lockstep;
    if Exhausted(b, d) {
      InStepNeedsEvenDemand(problem, specs, order, phase.occupancy, b, d);
      assert Left(b.remaining, GroupKey(d.groups[0])) == 0;
    }
    if g :| EvenDemand(problem, d) && g in d.groups && Left(b.remaining, GroupKey(g)) == 0 {
      forall h | h in d.groups
        ensures Left(b.remaining, GroupKey(h)) == 0
      {
        EvenlyLeft(problem, specs, order, phase.occupancy, b, d, g, h);
      }
    }
  }

  lemma EvenlyLeft(problem: Problem, specs: seq<Spec>, order: seq<Id>, o: Occupancy, b: Books<TaskKey>, d: Block, g: Id, h: Id)
    requires WellFormed(problem) && GroupsNamed(problem) && AudiencePreflight.Feasible(problem) && IsTaskList(problem, specs, order)
    requires Sound(problem, specs, o, b) && Separate(problem, d) && Validator.InStep(b.placements, d)
    requires EvenDemand(problem, d) && g in d.groups && h in d.groups
    ensures Left(b.remaining, GroupKey(h)) == Left(b.remaining, GroupKey(g))
  {
    hide WellFormed, GroupsNamed, AudiencePreflight.Feasible, IsTaskList, Sound, Separate, Validator.InStep, Left, GroupSpec;
    var group, t := MemberTask(problem, specs, order, d, g);
    var other, u := MemberTask(problem, specs, order, d, h);
    InStepIsEven(problem, specs, order, o, b, d, group, other);
  }

  /** The attempt as a whole, for a block with groups of its own. With even demand, if one group places everything in rounds of the
      block, the block is simultaneous at the end; with uneven demand, it is not simultaneous once everything is placed. */
  lemma SimultaneousByDemand(problem: Problem, specs: seq<Spec>, order: seq<Id>, phase: Phase, o: Occupancy, b: Books<TaskKey>, d: Block)
    requires WellFormed(problem) && GroupsNamed(problem) && AudiencePreflight.Feasible(problem) && IsTaskList(problem, specs, order)
    requires BlocksLeave(problem, specs, phase) && Sound(problem, specs, o, b) && AllInStep(b.placements, DoneBlocks(problem, phase.books))
    requires Separate(problem, d)
    ensures EvenDemand(problem, d) && (exists g | g in d.groups :: Left(phase.books.remaining, GroupKey(g)) == 0) ==> Validator.InStep(b.placements, d)
    ensures !EvenDemand(problem, d) && Exhausted(b, d) ==> !Validator.InStep(b.placements, d)
  {
    ExhaustedIff(problem, specs, order, phase, d);
    hide WellFormed, GroupsNamed, AudiencePreflight.Feasible, IsTaskList, Sound, Validator.InStep, BlocksLeave, EvenDemand, Exhausted, Left;
    if Exhausted(phase.books, d) {
      assert d in DoneBlocks(problem, phase.books);
    }
    if Exhausted(b, d) && Validator.InStep(b.placements, d) {
      InStepNeedsEvenDemand(problem, specs, order, o, b, d);
    }
  }
}

/** `Solve`: preflight, restarts, and the choice of the best attempt. */
module Solver {
  import opened Model
  import opened Ledger
  import opened AttemptState
  import opened Validator
  import opened Engine
  import EdgeColoring
  import ColorLessons
  import Attempt
  import Agreement
  import Necessity
  import Preflight
  import Tasks
  import AudiencePreflight
  import AudienceSolver
  import AudienceAttempt

  datatype Status = Complete | CompleteWithSoftViolations | Infeasible | TimeBudgetExceeded | PartialDraft

  datatype Choice = NoChoice | Chosen(placements: seq<Placement>, timedOut: bool, report: Report)

  datatype Result = Result(status: Status, placements: seq<Placement>, report: Report)

  /** The report of a result without an attempt. */
  const NO_REPORT: Report := Report(false, 0, 0, 0, [])

  predicate Succeeded(status: Status) {
    status == Complete || status == CompleteWithSoftViolations
  }

  /** The preflight of the problem's kind has nothing to object. */
  ghost predicate Feasible(problem: Problem) {
    if Agreement.Ordinary(problem) then Preflight.Feasible(problem) else AudiencePreflight.Feasible(problem)
  }

  /** What the source takes for granted of a problem. */
  ghost predicate Proper(problem: Problem, config: Config) {
    && WellFormed(problem) && Tasks.GroupsNamed(problem)
    && (config.incremental ==> ExistingShaped(problem))
  }

  /** `AnalyzeFeasibility`. */
  method AnalyzeFeasibility(problem: Problem) returns (feasible: bool)
    requires WellFormed(problem) && Tasks.GroupsNamed(problem)
    ensures feasible <==> Feasible(problem)
  {
    hide WellFormed, Tasks.GroupsNamed, Preflight.Feasible, AudiencePreflight.Feasible;
    if problem.groups != [] || problem.learners != map[] || problem.blocks != [] {
      var issues;
      ghost var specs, order;
      issues, specs, order := AudiencePreflight.AnalyzeAudience(problem);
      feasible := issues == [];
    } else {
      var issues := Preflight.AnalyzeOrdinary(problem);
      feasible := issues == [];
    }
  }

  // ----- one attempt

  /** Ordinary demand that an attempt is bound to complete. */
  ghost predicate Bound(problem: Problem, config: Config, pattern: EdgeColoring.Mode) {
    && Agreement.Ordinary(problem) && !config.incremental && Attempt.Completable(problem, pattern)
    && config.timeless && ColorLessons.Enough(problem, pattern, config.iterationBudget - 1)
  }

  /** The deadline never passes, and the budget is above what any attempt can use. */
  ghost predicate Generous(problem: Problem, config: Config) {
    && config.timeless
    && if Agreement.Ordinary(problem) then config.iterationBudget > Attempt.Allowance(problem)
       else forall specs: seq<Tasks.Spec>, order | Tasks.IsTaskList(problem, specs, order) :: config.iterationBudget > AudienceAttempt.Allowance(problem, specs)
  }

  /** An ordinary attempt may end with these lessons. */
  ghost predicate OrdinaryEnd(problem: Problem, config: Config, ps: seq<Placement>, timedOut: bool) {
    exists c: Attempt.Course, o: Occupancy, b: Books<Id> ::
      b.placements == ps && Mirrors(o, ps) && Kept(problem, b) && Attempt.Follows(problem, config, c, o, b, timedOut)
  }

  /** An attempt with audiences may end with these lessons. */
  ghost predicate AudienceEnd(problem: Problem, ps: seq<Placement>, timedOut: bool) {
    exists specs, order, phase, o: Occupancy, b: Books<Tasks.TaskKey> ::
      b.placements == ps && Tasks.IsTaskList(problem, specs, order) && AudienceAttempt.Follows(problem, specs, phase, o, b, timedOut)
  }

  /** The lessons an attempt returns. */
  ghost predicate Plausible(problem: Problem, config: Config, pattern: EdgeColoring.Mode, ps: seq<Placement>, timedOut: bool) {
    && TagsMatch(problem, ps)
    && (if Agreement.Ordinary(problem) then OrdinaryEnd(problem, config, ps, timedOut) else AudienceEnd(problem, ps, timedOut))
    && (Generous(problem, config) ==> !timedOut)
    && (Bound(problem, config, pattern) ==> Attempt.Complete(problem, ps) && forall p | p in ps :: LegalLesson(problem, Schedule(problem), p))
  }

  lemma OrdinaryTags(problem: Problem, state: State<Id>)
    requires Agreement.Ordinary(problem) && InOrder(problem, state)
    ensures TagsMatch(problem, state.books.placements) && forall p | p in state.books.placements :: LegalLesson(problem, Schedule(problem), p)
  {
    hide Schedule, LegalLesson;
  }

  method SolveAttempt(problem: Problem, config: Config, ghost pattern: EdgeColoring.Mode)
    returns (placements: seq<Placement>, timedOut: bool)
    requires Proper(problem, config) && Feasible(problem)
    ensures Plausible(problem, config, pattern, placements, timedOut)
  {
    hide Attempt.Allowance, AudienceAttempt.Allowance, OrdinaryEnd, AudienceEnd, Attempt.Follows, Mirrors, Kept, WellFormed, Tasks.GroupsNamed, ExistingShaped, Preflight.Feasible, AudiencePreflight.Feasible, Attempt.Complete,
         LegalLesson, TagsMatch, Attempt.Completable, ColorLessons.Enough, Schedule, InOrder;
    if problem.groups != [] || problem.learners != map[] || problem.blocks != [] {
      placements, timedOut := SolveWithAudiences(problem, config);
    } else {
      var state;
      ghost var course;
      state, course := Attempt.SolveOrdinary(problem, config, pattern);
      OrdinaryTags(problem, state);
      NowOrdinaryEnd(problem, config, state, course);
      placements, timedOut := state.books.placements, state.timedOut;
    }
  }

  method SolveWithAudiences(problem: Problem, config: Config) returns (placements: seq<Placement>, timedOut: bool)
    requires WellFormed(problem) && Tasks.GroupsNamed(problem) && AudiencePreflight.Feasible(problem)
    ensures TagsMatch(problem, placements)
    ensures AudienceEnd(problem, placements, timedOut)
    ensures !Agreement.Ordinary(problem) && Generous(problem, config) ==> !timedOut
  {
    hide *;
    var state;
    ghost var specs, order, phase;
    state, specs, order, phase := AudienceAttempt.SolveAudience(problem, config);
    EndIsSound(problem, specs, phase, state);
    AudienceAttempt.TagsAreFine(problem, specs, state.occupancy, state.books);
    GenerousTasks(problem, config, specs, order);
    NowAudienceEnd(problem, specs, order, phase, state);
    placements, timedOut := state.books.placements, state.timedOut;
  }

  lemma NowOrdinaryEnd(problem: Problem, config: Config, state: State<Id>, c: Attempt.Course)
    requires InOrder(problem, state) && Attempt.Follows(problem, config, c, state.occupancy, state.books, state.timedOut)
    ensures OrdinaryEnd(problem, config, state.books.placements, state.timedOut)
  {
    hide Attempt.Follows, Mirrors, Kept;
  }

  lemma NowAudienceEnd(problem: Problem, specs: seq<Tasks.Spec>, order: seq<Id>, phase: AudienceAttempt.Phase, state: State<Tasks.TaskKey>)
    requires Tasks.IsTaskList(problem, specs, order)
    requires AudienceAttempt.Follows(problem, specs, phase, state.occupancy, state.books, state.timedOut)
    ensures AudienceEnd(problem, state.books.placements, state.timedOut)
  {
    hide Tasks.IsTaskList, AudienceAttempt.Follows;
  }

  lemma EndIsSound(problem: Problem, specs: seq<Tasks.Spec>, phase: AudienceAttempt.Phase, state: State<Tasks.TaskKey>)
    requires AudienceAttempt.Follows(problem, specs, phase, state.occupancy, state.books, state.timedOut)
    ensures AudienceSolver.Sound(problem, specs, state.occupancy, state.books)
  {
    hide AudienceSolver.Sound, AudienceAttempt.BlocksLeave, AudienceAttempt.Continues, AudienceAttempt.AllInStep, AudienceAttempt.NoRoomMissed,
         AudienceAttempt.NoPairMissed;
  }

  lemma GenerousTasks(problem: Problem, config: Config, specs: seq<Tasks.Spec>, order: seq<Id>)
    requires Tasks.IsTaskList(problem, specs, order)
    ensures !Agreement.Ordinary(problem) && Generous(problem, config) ==>
              config.timeless && config.iterationBudget > AudienceAttempt.Allowance(problem, specs)
  {
    hide Tasks.IsTaskList, AudienceAttempt.Allowance, Attempt.Allowance;
  }

  // ----- the choice

  /** What the validator says about its report. */
  ghost predicate Consistent(r: Report) {
    (r.valid <==> r.hard == 0) && (r.valid ==> r.unscheduled == 0)
  }

  /** The test by which an attempt displaces the best one so far. */
  predicate Displaces(r: Report, best: Report) {
    || r.unscheduled < best.unscheduled
    || (r.unscheduled == best.unscheduled && r.hard < best.hard)
    || (r.valid && r.soft < best.soft)
  }

  /** The order of merit: what is unscheduled, then hard conflicts, then, among valid attempts, soft violations. */
  predicate NoWorse(a: Report, b: Report) {
    || a.unscheduled < b.unscheduled
    || (a.unscheduled == b.unscheduled && (a.hard < b.hard || (a.hard == b.hard && (a.valid ==> a.soft <= b.soft))))
  }

  /** The test follows the order of merit: it lets a better attempt in, and a valid one is never displaced by an invalid one. */
  lemma DisplacesByMerit(r: Report, best: Report)
    requires Consistent(r) && Consistent(best)
    ensures Displaces(r, best) ==> NoWorse(r, best) && (best.valid ==> r.valid)
    ensures !Displaces(r, best) ==> NoWorse(best, r)
  {
  }

  lemma MeritIsTransitive(a: Report, b: Report, c: Report)
    requires Consistent(a) && Consistent(b) && Consistent(c) && NoWorse(a, b) && NoWorse(b, c)
    ensures NoWorse(a, c)
  {
  }

  /** Attempts only. */
  predicate AllChosen(attempts: seq<Choice>) {
    forall c | c in attempts :: c.Chosen?
  }

  /** The best of the attempts: the first, displaced by every later one that passes the test. */
  function Choose(attempts: seq<Choice>): (best: Choice)
    requires AllChosen(attempts)
    ensures best.Chosen? <==> attempts != []
  {
    if attempts == [] then NoChoice
    else
      var last, best := attempts[|attempts| - 1], Choose(attempts[..|attempts| - 1]);
      if best.NoChoice? || Displaces(last.report, best.report) then last else best
  }

  ghost predicate AllConsistent(attempts: seq<Choice>) {
    forall c | c in attempts :: c.Chosen? && Consistent(c.report)
  }

  /** The choice is one of the attempts, and no attempt is better. */
  lemma {:induction false} ChosenIsBest(attempts: seq<Choice>)
    requires AllChosen(attempts) && AllConsistent(attempts) && attempts != []
    ensures Choose(attempts) in attempts && forall c | c in attempts :: NoWorse(Choose(attempts).report, c.report)
  {
    hide NoWorse, Consistent, Displaces;
    var rest, last := attempts[..|attempts| - 1], attempts[|attempts| - 1];
    assert attempts == rest + [last] && forall c | c in rest :: c in attempts;
    MeritIsReflexive(last.report);
    if rest != [] {
      ChosenIsBest(rest);
      var best := Choose(rest);
      DisplacesByMerit(last.report, best.report);
      forall c | c in rest && NoWorse(last.report, best.report)
        ensures NoWorse(last.report, c.report)
      {
        MeritIsTransitive(last.report, best.report, c.report);
      }
    }
  }

  /** If any attempt is valid, so is the choice, and it has no more soft violations. */
  lemma ValidIsChosen(attempts: seq<Choice>, c: Choice)
    requires AllChosen(attempts) && AllConsistent(attempts) && c in attempts && c.report.valid
    ensures Choose(attempts).Chosen? && Choose(attempts).report.valid && Choose(attempts).report.soft <= c.report.soft
  {
    ChosenIsBest(attempts);
    var best := Choose(attempts);
    assert NoWorse(best.report, c.report) && Consistent(best.report) && Consistent(c.report);
  }

  /** What the validator reports of the lessons. */
  ghost predicate ReportOf(problem: Problem, ps: seq<Placement>, r: Report) {
    && (forall inv :: Raised(r.failures, inv) <==> Violates(inv, problem, ps)) && r.hard == |r.failures| == HardFaults(problem, ps)
    && r.unscheduled == Shortfall(problem, problem.assignments, CountedOnly(problem, ps))
    && (r.valid <==> ValidSchedule(problem, ps)) && Consistent(r)
  }

  /** Lessons as an attempt returns them, with the validator's report on them. */
  ghost predicate Genuine(problem: Problem, config: Config, pattern: EdgeColoring.Mode, attempts: seq<Choice>) {
    forall c | c in attempts ::
      c.Chosen? && Plausible(problem, config, pattern, c.placements, c.timedOut) && ReportOf(problem, c.placements, c.report)
  }

  lemma GenuineIsConsistent(problem: Problem, config: Config, pattern: EdgeColoring.Mode, attempts: seq<Choice>)
    requires Genuine(problem, config, pattern, attempts)
    ensures AllChosen(attempts) && AllConsistent(attempts)
  {
    hide Plausible, Raised, Violates, ValidSchedule, Shortfall, CountedOnly, HardFaults, Consistent, Generous;
  }

  lemma GenuineMore(problem: Problem, config: Config, pattern: EdgeColoring.Mode, attempts: seq<Choice>, next: Choice)
    requires Genuine(problem, config, pattern, attempts) && next.Chosen?
    requires Plausible(problem, config, pattern, next.placements, next.timedOut) && ReportOf(problem, next.placements, next.report)
    ensures Genuine(problem, config, pattern, attempts + [next])
  {
    hide Plausible, ReportOf, Generous;
    assert forall c :: c in attempts + [next] <==> c in attempts || c == next;
  }

  lemma ChooseMore(problem: Problem, config: Config, pattern: EdgeColoring.Mode, attempts: seq<Choice>, next: Choice)
    requires Genuine(problem, config, pattern, attempts + [next])
    ensures AllChosen(attempts) && AllChosen(attempts + [next]) && next.Chosen?
    ensures Choose(attempts + [next]) ==
              if attempts == [] || Displaces(next.report, Choose(attempts).report) then next else Choose(attempts)
  {
    hide Plausible, ReportOf, Displaces, Generous;
    assert (attempts + [next])[..|attempts|] == attempts;
    assert next in attempts + [next] && forall c | c in attempts :: c in attempts + [next];
  }

  lemma MeritIsReflexive(r: Report)
    ensures NoWorse(r, r)
  {
  }

  /** The configuration with its defaults filled in. */
  function Defaulted(config: Config): Config {
    config.(iterationBudget := if config.iterationBudget <= 0 then 1_000_000 else config.iterationBudget,
            restarts := if config.restarts <= 0 then 3 else config.restarts)
  }

  /** What the restarts of a run have tried, in order. */
  class Trace {
    ghost var attempts: seq<Choice>

    constructor ()
      ensures attempts == []
    {
      attempts := [];
    }

    /** One attempt and its validation; the trace remembers both. */
    method TryOnce(problem: Problem, config: Config, ghost pattern: EdgeColoring.Mode) returns (attempt: Choice)
      requires Proper(problem, config) && Feasible(problem) && Genuine(problem, config, pattern, attempts)
      modifies this
      ensures attempt.Chosen? && attempts == old(attempts) + [attempt] && Genuine(problem, config, pattern, attempts)
    {
      hide Proper, Feasible, Plausible, ReportOf, Genuine, Choose, AllChosen, Displaces, Generous;
      var placements, timedOut := SolveAttempt(problem, config, pattern);
      TagsArePlausible(problem, config, pattern, placements, timedOut);
      var outcome := ValidateSchedule(problem, placements);
      NowReported(problem, placements, outcome.report);
      attempt := Chosen(placements, timedOut, outcome.report);
      GenuineMore(problem, config, pattern, attempts, attempt);
      attempts := attempts + [attempt];
    }
  }

  /** The restarts: as many as allowed, stopping at a flawless attempt. The best of all that were tried is kept. */
  method Restart(problem: Problem, config: Config, ghost pattern: EdgeColoring.Mode, trace: Trace) returns (best: Choice)
    requires Proper(problem, config) && Feasible(problem) && config.restarts > 0 && trace.attempts == []
    modifies trace
    ensures Genuine(problem, config, pattern, trace.attempts) && AllChosen(trace.attempts) && best == Choose(trace.attempts)
    ensures |trace.attempts| <= config.restarts && forall k | 0 <= k < |trace.attempts| - 1 :: !Flawless(trace.attempts[k])
    ensures config.timeless ==> best.Chosen? && (|trace.attempts| == config.restarts || Flawless(trace.attempts[|trace.attempts| - 1]))
  {
    hide Proper, Feasible, Plausible, ReportOf, Displaces, Genuine, Choose, AllChosen, Generous;
    best := NoChoice;
    NothingTried(problem, config, pattern);
    var restart := 0;
    while restart < config.restarts
      invariant 0 <= restart <= config.restarts && |trace.attempts| == restart
      invariant Genuine(problem, config, pattern, trace.attempts) && AllChosen(trace.attempts) && best == Choose(trace.attempts)
      invariant forall k | 0 <= k < |trace.attempts| :: !Flawless(trace.attempts[k])
      decreases config.restarts - restart
    {
      var late := DeadlinePassed(config);
      if late {
        break;
      }
      ghost var before := trace.attempts;
      var attempt := trace.TryOnce(problem, config, pattern);
      ChooseMore(problem, config, pattern, before, attempt);
      if best.NoChoice? || Displaces(attempt.report, best.report) {
        best := attempt;
      }
      restart := restart + 1;
      if attempt.report.valid && attempt.report.soft == 0 {
        break;
      }
    }
  }

  /** An attempt after which there is no other. */
  predicate Flawless(c: Choice) {
    c.Chosen? && c.report.valid && c.report.soft == 0
  }

  lemma NothingTried(problem: Problem, config: Config, pattern: EdgeColoring.Mode)
    ensures Genuine(problem, config, pattern, []) && AllChosen([]) && Choose([]) == NoChoice
  {
  }

  lemma NowReported(problem: Problem, ps: seq<Placement>, r: Report)
    requires forall inv :: Raised(r.failures, inv) <==> Violates(inv, problem, ps)
    requires r.hard == |r.failures| == HardFaults(problem, ps) && r.unscheduled == Shortfall(problem, problem.assignments, CountedOnly(problem, ps))
    requires (r.valid <==> r.hard == 0) && (r.valid <==> ValidSchedule(problem, ps)) && (r.valid ==> r.unscheduled == 0)
    ensures ReportOf(problem, ps, r)
  {
    hide Raised, Violates, ValidSchedule, Shortfall, CountedOnly, HardFaults;
  }

  lemma TagsArePlausible(problem: Problem, config: Config, pattern: EdgeColoring.Mode, ps: seq<Placement>, timedOut: bool)
    requires Plausible(problem, config, pattern, ps, timedOut)
    ensures TagsMatch(problem, ps)
  {
  }

  // ----- the verdict

  ghost predicate AllMandatory(problem: Problem) {
    forall a | a in problem.assignments && Schedulable(problem, a) :: a.mandatory
  }

  /** A timetable as the solver makes them proves that the problem can be solved. */
  lemma CompleteIsWitness(problem: Problem, ps: seq<Placement>)
    requires WellFormed(problem) && AllMandatory(problem) && Attempt.Complete(problem, ps)
    requires forall p | p in ps :: LegalLesson(problem, Schedule(problem), p)
    ensures Necessity.Witness(problem, ps)
  {
    hide ValidSchedule, WellFormed, Schedule, WellShaped, OpenCell;
    forall p | p in ps
      ensures Necessity.PlainLesson(problem, p)
    {
      assert LegalLesson(problem, Schedule(problem), p);
    }
  }

  /** Demand that the solver decides: single lessons only, double lessons only, or paired demand with enough adjacent pairs. */
  ghost predicate Decidable(problem: Problem, config: Config, pattern: EdgeColoring.Mode) {
    Bound(problem, config, pattern) && Necessity.DistinctSlots(problem) && AllMandatory(problem)
  }

  /** Where demand is decidable, the choice is a solution. */
  lemma SolvableIsSolved(problem: Problem, config: Config, pattern: EdgeColoring.Mode, tried: seq<Choice>)
    requires WellFormed(problem) && Decidable(problem, config, pattern) && Genuine(problem, config, pattern, tried) && AllChosen(tried) && tried != []
    requires Feasible(problem)
    ensures Choose(tried).Chosen? && Choose(tried).report.valid && Necessity.Scoped(problem) && Necessity.Solution(problem, Choose(tried).placements)
  {
    var best := Choose(tried);
    assert best in tried by {
      hide *;
      GenuineIsConsistent(problem, config, pattern, tried);
      ChosenIsBest(tried);
    }
    hide ValidSchedule, WellFormed, Schedule, LegalLesson, TagsMatch, NoWorse, Necessity.Witness, Necessity.DistinctSlots, AllMandatory,
         Attempt.Completable, ColorLessons.Enough, Preflight.Feasible, AudiencePreflight.Feasible, Necessity.Scoped, Necessity.FullyTaught, Choose,
         Raised, Violates, Shortfall, CountedOnly, HardFaults, Consistent, Generous;
    CompleteIsWitness(problem, best.placements);
    Necessity.FeasibleIff(problem, best.placements);
  }

  lemma UnsolvableIfInfeasible(problem: Problem, config: Config, pattern: EdgeColoring.Mode)
    requires WellFormed(problem) && Decidable(problem, config, pattern) && !Feasible(problem)
    ensures Necessity.Scoped(problem) ==> forall ps :: !Necessity.Solution(problem, ps)
  {
    hide WellFormed, Necessity.Witness, Necessity.DistinctSlots, Preflight.Feasible, AudiencePreflight.Feasible, AllMandatory, Attempt.Completable,
         ColorLessons.Enough, Necessity.Scoped, Necessity.FullyTaught;
    forall ps | Necessity.Scoped(problem)
      ensures !Necessity.Solution(problem, ps)
    {
      if Necessity.Witness(problem, ps) {
        Necessity.FeasibleIff(problem, ps);
      }
    }
  }

  lemma SettledIsSimple(problem: Problem)
    requires WellFormed(problem) && Necessity.Settled(problem)
    ensures Necessity.Scoped(problem) && forall ps :: Necessity.Solution(problem, ps) <==> Necessity.Witness(problem, ps)
  {
    hide WellFormed, Necessity.Witness, Necessity.FullyTaught, Necessity.Scoped, Necessity.DistinctSlots;
    forall ps
      ensures Necessity.Solution(problem, ps) <==> Necessity.Witness(problem, ps)
    {
      if Necessity.Witness(problem, ps) && problem.fullCoverage {
        Necessity.SettledIsTaught(problem, ps);
      }
    }
  }

  /** The result is about the chosen attempt. One that is not valid is a partial draft, unless it was stopped or the time is over. */
  predicate Reports(result: Result, best: Choice, config: Config) {
    match best
    case NoChoice => result == Result(TimeBudgetExceeded, [], NO_REPORT)
    case Chosen(placements, timedOut, report) =>
      && result.placements == placements && result.report == report
      && (report.valid ==> result.status == if report.soft > 0 then CompleteWithSoftViolations else Complete)
      && (!report.valid && timedOut ==> result.status == TimeBudgetExceeded)
      && (!report.valid && !timedOut && config.timeless ==> result.status == PartialDraft)
      && (!report.valid ==> result.status == PartialDraft || result.status == TimeBudgetExceeded)
  }

  /** The restarts that are tried: no more than asked for, or three, and none after a flawless one. */
  ghost predicate Restarted(given: Config, tried: seq<Choice>) {
    var most := if given.restarts > 0 then given.restarts else 3;
    && |tried| <= most && (forall k | 0 <= k < |tried| - 1 :: !Flawless(tried[k]))
    && (given.timeless ==> tried != [] && (|tried| == most || Flawless(tried[|tried| - 1])))
  }

  /** A budget that is generous, where an unset one stands for a million. */
  ghost predicate GivenGenerously(problem: Problem, given: Config) {
    Generous(problem, given.(iterationBudget := if given.iterationBudget > 0 then given.iterationBudget else 1_000_000))
  }

  /** `Solve`. Success is reported only for a timetable that the validator accepts, and whenever some attempt was valid; and where
      demand is decidable, success is reported exactly when there is a solution. */
  method Solve(problem: Problem, given: Config, ghost pattern: EdgeColoring.Mode) returns (result: Result, ghost tried: seq<Choice>)
    requires Proper(problem, given)
    ensures result.status == Infeasible <==> !Feasible(problem)
    ensures Succeeded(result.status) ==> ValidSchedule(problem, result.placements)
    ensures Succeeded(result.status) ==> result.report.valid && result.report.hard == 0 && result.report.unscheduled == 0
    ensures Genuine(problem, Defaulted(given), pattern, tried) && AllChosen(tried)
    ensures Succeeded(result.status) <==> exists c | c in tried :: c.report.valid
    ensures result.status != Infeasible ==> Reports(result, Choose(tried), given) && Restarted(given, tried)
    ensures GivenGenerously(problem, given) ==> result.status != TimeBudgetExceeded
    ensures Decidable(problem, Defaulted(given), pattern) ==>
              (Succeeded(result.status) <==> Necessity.Scoped(problem) && exists ps :: Necessity.Solution(problem, ps))
    ensures Decidable(problem, Defaulted(given), pattern) && Necessity.Settled(problem) ==>
              (Succeeded(result.status) <==> exists ps :: Necessity.Witness(problem, ps))
  {
    hide *;
    var config := Defaulted(given);
    DefaultsFacts(problem, given);
    if Necessity.Settled(problem) {
      SettledIsSimple(problem);
    }
    tried := [];
    var feasible := AnalyzeFeasibility(problem);
    if !feasible {
      if Decidable(problem, config, pattern) {
        UnsolvableIfInfeasible(problem, config, pattern);
      }
      NothingTried(problem, config, pattern);
      return Result(Infeasible, [], NO_REPORT), [];
    }
    var trace := new Trace();
    NothingTried(problem, config, pattern);
    var best := Restart(problem, config, pattern, trace);
    tried := trace.attempts;
    ChoiceFacts(problem, config, pattern, tried);
    if Decidable(problem, config, pattern) {
      DecidableIsTimeless(problem, config, pattern);
      SolvableIsSolved(problem, config, pattern, tried);
    }
    BestFacts(problem, given, config, pattern, tried, best);
    if best.NoChoice? {
      result := Result(TimeBudgetExceeded, [], NO_REPORT);
      ReportsAre(result, best, given);
      return;
    }
    var status := PartialDraft;
    if best.report.valid {
      status := if best.report.soft > 0 then CompleteWithSoftViolations else Complete;
    } else {
      var late := DeadlinePassed(config);
      if late || best.timedOut {
        status := TimeBudgetExceeded;
      }
    }
    StatusFacts(status, best.report);
    result := Result(status, best.placements, best.report);
    ReportsAre(result, best, given);
  }

  lemma ReportsAre(result: Result, best: Choice, config: Config)
    requires best.NoChoice? ==> result == Result(TimeBudgetExceeded, [], NO_REPORT)
    requires best.Chosen? ==> result.placements == best.placements && result.report == best.report
    requires best.Chosen? && best.report.valid ==> result.status == if best.report.soft > 0 then CompleteWithSoftViolations else Complete
    requires best.Chosen? && !best.report.valid ==> result.status == PartialDraft || result.status == TimeBudgetExceeded
    requires best.Chosen? && !best.report.valid && best.timedOut ==> result.status == TimeBudgetExceeded
    requires best.Chosen? && !best.report.valid && !best.timedOut && config.timeless ==> result.status == PartialDraft
    ensures Reports(result, best, config)
  {
  }

  /** What the restarts say about the given configuration. */
  lemma BestFacts(problem: Problem, given: Config, config: Config, pattern: EdgeColoring.Mode, tried: seq<Choice>, best: Choice)
    requires config == Defaulted(given) && Genuine(problem, config, pattern, tried) && AllChosen(tried) && best == Choose(tried)
    requires |tried| <= config.restarts && forall k | 0 <= k < |tried| - 1 :: !Flawless(tried[k])
    requires config.timeless ==> tried != [] && (|tried| == config.restarts || Flawless(tried[|tried| - 1]))
    ensures Restarted(given, tried) && config.timeless == given.timeless
    ensures GivenGenerously(problem, given) ==> config.timeless && best.Chosen? && !best.timedOut
  {
    hide *;
    GenuineIsConsistent(problem, config, pattern, tried);
    NowRestarted(given, config, tried);
    GenerousDefaults(problem, given);
    if tried != [] {
      ChosenIsBest(tried);
      if Generous(problem, config) {
        NeverStopped(problem, config, pattern, tried, best);
      }
    }
  }

  lemma NowRestarted(given: Config, config: Config, tried: seq<Choice>)
    requires config == Defaulted(given) && |tried| <= config.restarts && forall k | 0 <= k < |tried| - 1 :: !Flawless(tried[k])
    requires config.timeless ==> tried != [] && (|tried| == config.restarts || Flawless(tried[|tried| - 1]))
    ensures Restarted(given, tried) && config.timeless == given.timeless
  {
    hide Flawless;
  }

  lemma GenerousDefaults(problem: Problem, given: Config)
    ensures GivenGenerously(problem, given) ==> Generous(problem, Defaulted(given)) && Defaulted(given).timeless
  {
    hide Attempt.Allowance, AudienceAttempt.Allowance, Tasks.IsTaskList;
  }

  lemma NeverStopped(problem: Problem, config: Config, pattern: EdgeColoring.Mode, tried: seq<Choice>, best: Choice)
    requires Genuine(problem, config, pattern, tried) && best in tried && Generous(problem, config)
    ensures best.Chosen? && !best.timedOut
  {
    hide ReportOf, Generous, TagsMatch, OrdinaryEnd, AudienceEnd, Bound, Attempt.Complete, LegalLesson;
  }

  lemma DefaultsFacts(problem: Problem, given: Config)
    requires Proper(problem, given)
    ensures Proper(problem, Defaulted(given)) && Defaulted(given).restarts > 0
    ensures WellFormed(problem) && Tasks.GroupsNamed(problem)
    ensures !Succeeded(Infeasible) && !Succeeded(TimeBudgetExceeded)
  {
    hide WellFormed, Tasks.GroupsNamed, ExistingShaped;
  }

  lemma DecidableIsTimeless(problem: Problem, config: Config, pattern: EdgeColoring.Mode)
    requires Decidable(problem, config, pattern)
    ensures config.timeless
  {
    hide Necessity.DistinctSlots, AllMandatory, Attempt.Completable, ColorLessons.Enough;
  }

  lemma ChoiceFacts(problem: Problem, config: Config, pattern: EdgeColoring.Mode, tried: seq<Choice>)
    requires Genuine(problem, config, pattern, tried) && AllChosen(tried)
    ensures var best := Choose(tried);
            && (best.NoChoice? <==> tried == []) && (forall c | c in tried :: c.Chosen?)
            && (best.Chosen? ==> (best.report.valid <==> ValidSchedule(problem, best.placements)))
            && (best.Chosen? && best.report.valid ==> best.report.hard == 0 && best.report.unscheduled == 0)
            && (best.Chosen? ==> (best.report.valid <==> exists c | c in tried :: c.report.valid))
  {
    GenuineIsConsistent(problem, config, pattern, tried);
    hide ValidSchedule, Plausible, NoWorse, Raised, Violates, Shortfall, CountedOnly, HardFaults, Displaces, Choose, Generous;
    if tried != [] {
      ChosenIsBest(tried);
      if c :| c in tried && c.report.valid {
        ValidIsChosen(tried, c);
      }
    }
  }

  lemma StatusFacts(status: Status, r: Report)
    requires r.valid ==> status == Complete || status == CompleteWithSoftViolations
    requires !r.valid ==> status == PartialDraft || status == TimeBudgetExceeded
    ensures (Succeeded(status) <==> r.valid) && status != Infeasible
  {
  }
}

/** Timetable versions from draft to publication: the handlers that change them, each as one atomic step, and generation as two. */
module Lifecycle {
  import opened Model
  import opened Lessons
  import Solver
  import Validator

  datatype Status = Draft | Validating | Validated | Published | Superseded | Archived

  datatype Entry = Entry(id: Id, lesson: Placement)

  /** A solver run: what `persistSolveResult` stores, with the problem and the lessons it is about. */
  datatype Run = Run(status: Solver.Status, unscheduled: nat, hard: nat, problem: Problem, lessons: seq<Placement>)

  /** `runs` is in the order of creation. */
  datatype Version = Version(timetable: Id, number: nat, status: Status, entries: seq<Entry>, runs: seq<Run>)

  /** The stored versions, and the generations under way with the version each of them is for. */
  datatype State = State(versions: map<Id, Version>, jobs: map<Id, Id>)

  /** The handlers, with what they read from elsewhere as parameters: whether the academic data is current and the term open
      (`current`), whether the request and the database accept an entry (`accepted`), how many conflicts are detected. */
  datatype Step =
    | Create(version: Id, timetable: Id, derived: seq<Id>)
    | Add(version: Id, entry: Entry, accepted: bool)
    | Change(version: Id, target: Id, lesson: Placement, accepted: bool)
    | Remove(version: Id, target: Id)
    | Validate(version: Id, current: bool, detected: nat)
    | Publish(version: Id, current: bool, detected: nat)
    | Begin(job: Id, version: Id)
    | Finish(job: Id, run: Run, entries: seq<Entry>)
    | Invalidate(timetables: set<Id>)

  // ----- versions

  predicate Frozen(v: Version) {
    v.status == Published || v.status == Superseded
  }

  /** `versionEditable`. */
  predicate Editable(v: Version) {
    !Frozen(v) && v.status != Archived
  }

  function LessonsOf(entries: seq<Entry>): seq<Placement> {
    seq(|entries|, i requires 0 <= i < |entries| => entries[i].lesson)
  }

  /** What `CreateVersion` copies of a lesson: not its group, its block, its learners, its assignments or its list of cohorts; and a
      group of several cohorts has no cohort of its own. */
  function CopiedLesson(p: Placement): Placement {
    p.(assignment := NO_ID, assignments := [], group := NO_ID, block := NO_ID, learners := [], cohorts := [],
       cohort := if p.group != NO_ID && |CohortIds(p)| > 1 then NO_ID else p.cohort)
  }

  /** The entries of a derived version. */
  function Copied(entries: seq<Entry>): seq<Entry> {
    seq(|entries|, i requires 0 <= i < |entries| => entries[i].(lesson := CopiedLesson(entries[i].lesson)))
  }

  /** A change of entries, with the trigger that deletes the solver runs. */
  function Edited(v: Version, entries: seq<Entry>): Version {
    v.(entries := entries, runs := [], status := if v.status == Validating || v.status == Validated then Draft else v.status)
  }

  function Without(entries: seq<Entry>, id: Id): seq<Entry> {
    if entries == [] then []
    else if entries[0].id == id then Without(entries[1..], id)
    else [entries[0]] + Without(entries[1..], id)
  }

  function Replaced(entries: seq<Entry>, id: Id, lesson: Placement): seq<Entry> {
    if entries == [] then []
    else [if entries[0].id == id then entries[0].(lesson := lesson) else entries[0]] + Replaced(entries[1..], id, lesson)
  }

  predicate HasEntry(v: Version, id: Id) {
    exists e | e in v.entries :: e.id == id
  }

  /** `publicationBlocker` on the latest run. */
  predicate Publishable(v: Version, detected: nat) {
    && v.status == Validated && v.runs != []
    && var run := v.runs[|v.runs| - 1];
       Solver.Succeeded(run.status) && run.unscheduled == 0 && run.hard == 0 && detected == 0
  }

  /** The verdict of `ValidateVersion` on the latest run. */
  predicate Passes(v: Version, detected: nat)
    requires v.runs != []
  {
    var run := v.runs[|v.runs| - 1];
    detected == 0 && run.hard == 0 && run.unscheduled == 0 && Solver.Succeeded(run.status)
  }

  /** What `persistSolveResult` does to a version: an infeasible result leaves the entries and any earlier runs alone; the trigger
      deletes the earlier runs if any entry is deleted or inserted. */
  function Persisted(v: Version, run: Run, entries: seq<Entry>): Version {
    if run.status == Solver.Infeasible then v.(runs := v.runs + [run], status := Draft)
    else v.(entries := entries, runs := (if v.entries == [] && entries == [] then v.runs else []) + [run], status := Draft)
  }

  /** The version with the largest number of the timetable, if there is any. */
  predicate IsLatest(versions: map<Id, Version>, timetable: Id, derived: seq<Id>) {
    if derived == [] then forall id | id in versions :: versions[id].timetable != timetable
    else
      && |derived| == 1 && derived[0] in versions && versions[derived[0]].timetable == timetable
      && forall id | id in versions && versions[id].timetable == timetable :: versions[id].number <= versions[derived[0]].number
  }

  function Superseding(versions: map<Id, Version>, id: Id): map<Id, Version>
    requires id in versions
  {
    map k | k in versions ::
      if k == id then versions[k].(status := Published)
      else if versions[k].timetable == versions[id].timetable && versions[k].status == Published then versions[k].(status := Superseded)
      else versions[k]
  }

  /** The state after a step; a refused request changes nothing. */
  function Next(s: State, step: Step): State {
    match step
    case Create(id, timetable, derived) =>
      if id in s.versions || !IsLatest(s.versions, timetable, derived) then s
      else
        var number := if derived == [] then 1 else s.versions[derived[0]].number + 1;
        var entries := if derived == [] then [] else Copied(s.versions[derived[0]].entries);
        s.(versions := s.versions[id := Version(timetable, number, Draft, entries, [])])
    case Add(id, entry, accepted) =>
      if id in s.versions && Editable(s.versions[id]) && accepted
      then s.(versions := s.versions[id := Edited(s.versions[id], s.versions[id].entries + [entry])])
      else s
    case Change(id, entry, lesson, accepted) =>
      if id in s.versions && HasEntry(s.versions[id], entry) && Editable(s.versions[id]) && accepted
      then s.(versions := s.versions[id := Edited(s.versions[id], Replaced(s.versions[id].entries, entry, lesson))])
      else s
    case Remove(id, entry) =>
      if id in s.versions && Editable(s.versions[id]) && HasEntry(s.versions[id], entry)
      then s.(versions := s.versions[id := Edited(s.versions[id], Without(s.versions[id].entries, entry))])
      else s
    case Validate(id, current, detected) =>
      if id in s.versions && current && s.versions[id].runs != [] && Editable(s.versions[id])
      then s.(versions := s.versions[id := s.versions[id].(status := if Passes(s.versions[id], detected) then Validated else Draft)])
      else s
    case Publish(id, current, detected) =>
      if id in s.versions && current && Publishable(s.versions[id], detected) then s.(versions := Superseding(s.versions, id)) else s
    case Begin(job, id) =>
      if id in s.versions && !Frozen(s.versions[id]) && job !in s.jobs then s.(jobs := s.jobs[job := id]) else s
    case Finish(job, run, entries) =>
      if job !in s.jobs then s
      else
        var id, ended := s.jobs[job], s.(jobs := s.jobs - {job});
        if id in s.versions && (run.status == Solver.Infeasible || !Frozen(s.versions[id]))
        then ended.(versions := s.versions[id := Persisted(s.versions[id], run, entries)])
        else ended
    case Invalidate(timetables) =>
      s.(versions := map k | k in s.versions ::
           if s.versions[k].timetable in timetables && Editable(s.versions[k]) then s.versions[k].(runs := []) else s.versions[k])
  }

  // ----- runs of the system

  /** The solver hands over what it found: success is claimed only for valid timetables (`Solve`), whose validation has
      no failure and no shortfall, and the stored entries are its lessons. */
  ghost predicate Honest(step: Step) {
    step.Finish? ==> HonestRun(step.run) && (step.run.status != Solver.Infeasible ==> multiset(LessonsOf(step.entries)) == multiset(step.run.lessons))
  }

  ghost predicate HonestRun(run: Run) {
    Solver.Succeeded(run.status) ==> run.unscheduled == 0 && run.hard == 0 && Validator.ValidSchedule(run.problem, run.lessons)
  }

  /** The run that is stored for a result of the solver. */
  function RunOf(problem: Problem, result: Solver.Result): Run {
    Run(result.status, result.report.unscheduled, result.report.hard, problem, result.placements)
  }

  const EMPTY: State := State(map[], map[])

  /** The state after all steps. */
  function After(s: State, steps: seq<Step>): State {
    if steps == [] then s else Next(After(s, steps[..|steps| - 1]), steps[|steps| - 1])
  }

  ghost predicate AllHonest(steps: seq<Step>) {
    forall step | step in steps :: Honest(step)
  }

  // ----- what every step keeps

  /** The run is about the entries that the version has now. */
  ghost predicate About(run: Run, v: Version) {
    run.status != Solver.Infeasible ==> multiset(LessonsOf(v.entries)) == multiset(run.lessons)
  }

  /** The entries are the lessons of a solver run that the validator accepted. */
  ghost predicate Certified(v: Version) {
    && v.runs != []
    && var run := v.runs[|v.runs| - 1];
       && Solver.Succeeded(run.status) && run.unscheduled == 0 && run.hard == 0 && Validator.ValidSchedule(run.problem, run.lessons)
       && multiset(LessonsOf(v.entries)) == multiset(run.lessons)
  }

  ghost predicate FineVersion(v: Version) {
    && (forall run | run in v.runs :: HonestRun(run) && About(run, v))
    && (Frozen(v) ==> Certified(v))
  }

  /** One version of a timetable is published at most. */
  ghost predicate OnePublished(versions: map<Id, Version>) {
    forall a, b | a in versions && b in versions && versions[a].status == Published && versions[b].status == Published
                  && versions[a].timetable == versions[b].timetable :: a == b
  }

  ghost predicate Fine(s: State) {
    OnePublished(s.versions) && forall id | id in s.versions :: FineVersion(s.versions[id])
  }

  lemma EditedIsFine(v: Version, entries: seq<Entry>)
    requires Editable(v)
    ensures FineVersion(Edited(v, entries)) && Edited(v, entries).timetable == v.timetable && Edited(v, entries).status != Published
  {
  }

  lemma PersistedIsFine(v: Version, run: Run, entries: seq<Entry>)
    requires FineVersion(v) && HonestRun(run)
    requires run.status != Solver.Infeasible ==> multiset(LessonsOf(entries)) == multiset(run.lessons)
    ensures FineVersion(Persisted(v, run, entries))
  {
    hide Validator.ValidSchedule;
    var after := Persisted(v, run, entries);
    forall r | r in after.runs
      ensures HonestRun(r) && About(r, after)
    {
      if r != run {
        assert r in v.runs;
      }
    }
  }

  /** Replacing one version by a fine one that is not newly published. */
  lemma OneChanged(s: State, id: Id, v: Version)
    requires Fine(s) && FineVersion(v) && (v.status == Published ==> id in s.versions && s.versions[id].status == Published && s.versions[id].timetable == v.timetable)
    ensures Fine(State(s.versions[id := v], s.jobs))
  {
    hide FineVersion;
  }

  lemma PublishIsFine(s: State, id: Id, detected: nat)
    requires Fine(s) && id in s.versions && Publishable(s.versions[id], detected)
    ensures Fine(s.(versions := Superseding(s.versions, id)))
  {
    hide Validator.ValidSchedule;
    var after := Superseding(s.versions, id);
    var run := s.versions[id].runs[|s.versions[id].runs| - 1];
    assert run in s.versions[id].runs && HonestRun(run) && About(run, s.versions[id]);
    forall k | k in after
      ensures FineVersion(after[k])
    {
      assert FineVersion(s.versions[k]);
      forall r | r in after[k].runs
        ensures HonestRun(r) && About(r, after[k])
      {
        assert r in s.versions[k].runs;
      }
    }
  }

  lemma InvalidateIsFine(s: State, timetables: set<Id>)
    requires Fine(s)
    ensures Fine(Next(s, Invalidate(timetables)))
  {
    hide Validator.ValidSchedule;
  }

  lemma StepIsFine(s: State, step: Step)
    requires Fine(s) && Honest(step)
    ensures Fine(Next(s, step))
  {
    hide Validator.ValidSchedule, HonestRun;
    match step
    case Create(id, timetable, derived) =>
      if !(id in s.versions || !IsLatest(s.versions, timetable, derived)) {
        OneChanged(s, id, Next(s, step).versions[id]);
      }
    case Add(id, entry, accepted) =>
      if id in s.versions && Editable(s.versions[id]) && accepted {
        EditedIsFine(s.versions[id], s.versions[id].entries + [entry]);
        OneChanged(s, id, Next(s, step).versions[id]);
      }
    case Change(id, entry, lesson, accepted) =>
      if id in s.versions && HasEntry(s.versions[id], entry) && Editable(s.versions[id]) && accepted {
        EditedIsFine(s.versions[id], Replaced(s.versions[id].entries, entry, lesson));
        OneChanged(s, id, Next(s, step).versions[id]);
      }
    case Remove(id, entry) =>
      if id in s.versions && Editable(s.versions[id]) && HasEntry(s.versions[id], entry) {
        EditedIsFine(s.versions[id], Without(s.versions[id].entries, entry));
        OneChanged(s, id, Next(s, step).versions[id]);
      }
    case Validate(id, current, detected) =>
      if id in s.versions && current && s.versions[id].runs != [] && Editable(s.versions[id]) {
        ValidateIsFine(s, id, if Passes(s.versions[id], detected) then Validated else Draft);
      }
    case Publish(id, current, detected) =>
      if id in s.versions && current && Publishable(s.versions[id], detected) {
        PublishIsFine(s, id, detected);
      }
    case Begin(job, id) =>
    case Finish(job, run, entries) =>
      if job in s.jobs && s.jobs[job] in s.versions && (run.status == Solver.Infeasible || !Frozen(s.versions[s.jobs[job]])) {
        PersistedIsFine(s.versions[s.jobs[job]], run, entries);
        OneChanged(s, s.jobs[job], Persisted(s.versions[s.jobs[job]], run, entries));
      }
    case Invalidate(timetables) =>
      InvalidateIsFine(s, timetables);
  }

  lemma ValidateIsFine(s: State, id: Id, status: Status)
    requires Fine(s) && id in s.versions && (status == Validated || status == Draft)
    ensures Fine(State(s.versions[id := s.versions[id].(status := status)], s.jobs))
  {
    hide Validator.ValidSchedule, HonestRun;
    var v := s.versions[id].(status := status);
    forall run | run in v.runs
      ensures HonestRun(run) && About(run, v)
    {
      assert run in s.versions[id].runs;
    }
    OneChanged(s, id, v);
  }

  /** Publication safety over all runs: at most one version of a timetable is published, and the entries of every published or
      superseded version are exactly the lessons of its latest solve, which the validator accepted. */
  lemma {:induction false} EveryRunIsFine(steps: seq<Step>)
    requires AllHonest(steps)
    ensures Fine(After(EMPTY, steps))
  {
    if steps != [] {
      assert steps[|steps| - 1] in steps;
      EveryRunIsFine(steps[..|steps| - 1]);
      StepIsFine(After(EMPTY, steps[..|steps| - 1]), steps[|steps| - 1]);
    }
  }

  // ----- published entries stay

  /** An infeasible generation that began before the version was frozen reports now. */
  predicate LateInfeasible(s: State, step: Step, id: Id) {
    step.Finish? && step.job in s.jobs && s.jobs[step.job] == id && step.run.status == Solver.Infeasible
  }

  /** No step changes the entries of a published or superseded version; and the version stays so, unless a generation that began
      earlier reports that it was infeasible: that report reopens it as a draft. */
  lemma FrozenStep(s: State, step: Step, id: Id)
    requires id in s.versions && Frozen(s.versions[id])
    ensures id in Next(s, step).versions && Next(s, step).versions[id].entries == s.versions[id].entries
    ensures Frozen(Next(s, step).versions[id]) <==> !LateInfeasible(s, step, id)
    ensures LateInfeasible(s, step, id) ==> Next(s, step).versions[id].status == Draft
  {
  }

  /** Only the publication of another version of its timetable ends a publication, or a late infeasible report. */
  lemma PublishedStep(s: State, step: Step, id: Id)
    requires id in s.versions && s.versions[id].status == Published && !LateInfeasible(s, step, id)
    ensures Next(s, step).versions[id].status == Superseded ==>
              && step.Publish? && step.version != id && step.version in s.versions
              && s.versions[step.version].timetable == s.versions[id].timetable
              && Next(s, step).versions[step.version].status == Published
    ensures Next(s, step).versions[id].status == Published || Next(s, step).versions[id].status == Superseded
  {
  }

  /** Along the steps, no generation of the version reports late that it was infeasible. */
  ghost predicate NeverLate(s: State, steps: seq<Step>, id: Id) {
    forall k | 0 <= k < |steps| :: !LateInfeasible(After(s, steps[..k]), steps[k], id)
  }

  /** Along such steps the entries of a published version never change. */
  lemma {:induction false} FrozenUnlessLate(s: State, steps: seq<Step>, id: Id)
    requires id in s.versions && Frozen(s.versions[id]) && NeverLate(s, steps, id)
    ensures id in After(s, steps).versions && Frozen(After(s, steps).versions[id])
    ensures After(s, steps).versions[id].entries == s.versions[id].entries
  {
    if steps != [] {
      var before := steps[..|steps| - 1];
      forall k | 0 <= k < |before|
        ensures !LateInfeasible(After(s, before[..k]), before[k], id)
      {
        assert before[..k] == steps[..k];
      }
      FrozenUnlessLate(s, before, id);
      hide Next;
      FrozenStep(After(s, before), steps[|steps| - 1], id);
    }
  }

  /** No generation of the version is under way. */
  ghost predicate Idle(s: State, id: Id) {
    forall job | job in s.jobs :: s.jobs[job] != id
  }

  /** A frozen version of which no generation is under way stays so, over whole runs. */
  lemma {:induction false} IdleForGood(s: State, steps: seq<Step>, id: Id)
    requires id in s.versions && Frozen(s.versions[id]) && Idle(s, id)
    ensures id in After(s, steps).versions && Frozen(After(s, steps).versions[id]) && Idle(After(s, steps), id)
    ensures After(s, steps).versions[id].entries == s.versions[id].entries
  {
    if steps != [] {
      var before, last := steps[..|steps| - 1], steps[|steps| - 1];
      IdleForGood(s, before, id);
      IdleStep(After(s, before), last, id);
      hide Next;
    }
  }

  lemma IdleStep(s: State, step: Step, id: Id)
    requires id in s.versions && Frozen(s.versions[id]) && Idle(s, id)
    ensures id in Next(s, step).versions && Frozen(Next(s, step).versions[id]) && Idle(Next(s, step), id)
    ensures Next(s, step).versions[id].entries == s.versions[id].entries
  {
    FrozenStep(s, step, id);
  }

  /** Publication is for good, whatever happens afterwards, exactly when no generation of the version is under way. */
  lemma FrozenForGood(s: State, id: Id)
    requires id in s.versions && Frozen(s.versions[id])
    ensures Idle(s, id) <==> forall steps | AllHonest(steps) :: id in After(s, steps).versions && Frozen(After(s, steps).versions[id])
    ensures Idle(s, id) ==> forall steps :: id in After(s, steps).versions && After(s, steps).versions[id].entries == s.versions[id].entries
  {
    if Idle(s, id) {
      forall steps
        ensures id in After(s, steps).versions && Frozen(After(s, steps).versions[id])
        ensures After(s, steps).versions[id].entries == s.versions[id].entries
      {
        IdleForGood(s, steps, id);
      }
    } else {
      var job :| job in s.jobs && s.jobs[job] == id;
      LateReport(s, id, job);
    }
  }

  /** The generation under way reports that it was infeasible. */
  lemma LateReport(s: State, id: Id, job: Id)
    requires id in s.versions && Frozen(s.versions[id]) && job in s.jobs && s.jobs[job] == id
    ensures AllHonest([Finish(job, FAILED, [])]) && id in After(s, [Finish(job, FAILED, [])]).versions
    ensures !Frozen(After(s, [Finish(job, FAILED, [])]).versions[id])
  {
    var steps := [Finish(job, FAILED, [])];
    hide Validator.ValidSchedule;
    assert steps[..0] == [] && After(s, steps[..0]) == s;
    FrozenStep(s, steps[0], id);
  }

  /** A problem without any demand, which the empty timetable solves. */
  const BLANK: Problem := Problem(1, 1, 1, [], map[], map[], map[], map[], [], [], [], {}, false, [])

  lemma BlankIsSolved()
    ensures Validator.ValidSchedule(BLANK, [])
  {
    assert UsablePeriods(BLANK) == [];
  }

  const SOLVED: Run := Run(Solver.Complete, 0, 0, BLANK, [])
  const FAILED: Run := Run(Solver.Infeasible, 0, 0, BLANK, [])

  /** A version is created, solved and validated. */
  function Preparation(): seq<Step> {
    [Create(1, 1, [])] + [Begin(1, 1)] + [Finish(1, SOLVED, [])] + [Validate(1, true, 0)]
  }

  /** Another generation begins, and the version is published before it reports. */
  function EarlyPublication(): seq<Step> {
    Preparation() + [Begin(2, 1)] + [Publish(1, true, 0)]
  }

  lemma AfterMore(s: State, steps: seq<Step>, step: Step)
    ensures After(s, steps + [step]) == Next(After(s, steps), step)
  {
    assert (steps + [step])[..|steps|] == steps;
  }

  lemma Prepared()
    ensures After(EMPTY, Preparation()) == State(map[1 := Version(1, 1, Validated, [], [SOLVED])], map[])
  {
    hide After;
    assert After(EMPTY, []) == EMPTY by {
      AfterNothing();
    }
    AfterMore(EMPTY, [], Create(1, 1, []));
    assert [] + [Create(1, 1, [])] == [Create(1, 1, [])];
    var s1 := State(map[1 := Version(1, 1, Draft, [], [])], map[]);
    assert After(EMPTY, [Create(1, 1, [])]) == s1;
    AfterMore(EMPTY, [Create(1, 1, [])], Begin(1, 1));
    var s2 := State(s1.versions, map[1 := 1]);
    assert Next(s1, Begin(1, 1)) == s2;
    AfterMore(EMPTY, [Create(1, 1, [])] + [Begin(1, 1)], Finish(1, SOLVED, []));
    var s3 := State(map[1 := Version(1, 1, Draft, [], [SOLVED])], map[]);
    assert [] + [SOLVED] == [SOLVED] && s2.jobs - {1} == map[];
    assert Persisted(s2.versions[1], SOLVED, []) == Version(1, 1, Draft, [], [SOLVED]);
    assert Next(s2, Finish(1, SOLVED, [])).versions == s3.versions;
    AfterMore(EMPTY, [Create(1, 1, [])] + [Begin(1, 1)] + [Finish(1, SOLVED, [])], Validate(1, true, 0));
  }

  lemma AfterNothing()
    ensures After(EMPTY, []) == EMPTY
  {
  }

  lemma PublishedEarly()
    ensures After(EMPTY, EarlyPublication()) == State(map[1 := Version(1, 1, Published, [], [SOLVED])], map[2 := 1])
  {
    hide After, Preparation;
    Prepared();
    AfterMore(EMPTY, Preparation(), Begin(2, 1));
    AfterMore(EMPTY, Preparation() + [Begin(2, 1)], Publish(1, true, 0));
  }

  lemma {:induction false} HonestAppend(steps: seq<Step>, step: Step)
    requires AllHonest(steps) && Honest(step)
    ensures AllHonest(steps + [step])
  {
    hide Honest;
  }

  lemma PreparationIsHonest()
    ensures AllHonest(Preparation())
  {
    BlankIsSolved();
    assert LessonsOf([]) == [];
    assert Honest(Finish(1, SOLVED, []));
    hide Validator.ValidSchedule, HonestRun;
    assert forall step | step in Preparation() :: step == Finish(1, SOLVED, []) || !step.Finish?;
  }

  /** It can happen that a published version becomes a draft again. */
  lemma PublishedCanReopen()
    ensures AllHonest(EarlyPublication() + [Finish(2, FAILED, [])])
    ensures After(EMPTY, EarlyPublication()).versions == map[1 := Version(1, 1, Published, [], [SOLVED])]
    ensures After(EMPTY, EarlyPublication() + [Finish(2, FAILED, [])]).versions == map[1 := Version(1, 1, Draft, [], [SOLVED, FAILED])]
  {
    PreparationIsHonest();
    HonestAppend(Preparation(), Begin(2, 1));
    HonestAppend(Preparation() + [Begin(2, 1)], Publish(1, true, 0));
    HonestAppend(EarlyPublication(), Finish(2, FAILED, []));
    PublishedEarly();
    hide After, EarlyPublication, AllHonest;
    AfterMore(EMPTY, EarlyPublication(), Finish(2, FAILED, []));
    var s := State(map[1 := Version(1, 1, Published, [], [SOLVED])], map[2 := 1]);
    assert [SOLVED] + [FAILED] == [SOLVED, FAILED];
    assert Persisted(s.versions[1], FAILED, []) == Version(1, 1, Draft, [], [SOLVED, FAILED]);
    assert Next(s, Finish(2, FAILED, [])).versions == map[1 := Version(1, 1, Draft, [], [SOLVED, FAILED])];
  }

  // ----- edits and publication

  /** The step reports a generation of the version. */
  predicate Reports(s: State, step: Step, id: Id) {
    step.Finish? && step.job in s.jobs && s.jobs[step.job] == id
  }

  ghost predicate NoReports(s: State, steps: seq<Step>, id: Id) {
    forall k | 0 <= k < |steps| :: !Reports(After(s, steps[..k]), steps[k], id)
  }

  /** A version without solver runs, as every manual edit leaves it, is not published before it is solved again. */
  lemma {:induction false} UnsolvedIsNotPublished(s: State, steps: seq<Step>, id: Id)
    requires id in s.versions && s.versions[id].runs == [] && !Frozen(s.versions[id]) && NoReports(s, steps, id)
    ensures id in After(s, steps).versions && After(s, steps).versions[id].runs == [] && !Frozen(After(s, steps).versions[id])
  {
    if steps != [] {
      var before := steps[..|steps| - 1];
      forall k | 0 <= k < |before|
        ensures !Reports(After(s, before[..k]), before[k], id)
      {
        assert before[..k] == steps[..k];
      }
      UnsolvedIsNotPublished(s, before, id);
      UnsolvedStep(After(s, before), steps[|steps| - 1], id);
    }
  }

  lemma UnsolvedStep(s: State, step: Step, id: Id)
    requires id in s.versions && s.versions[id].runs == [] && !Frozen(s.versions[id]) && !Reports(s, step, id)
    ensures id in Next(s, step).versions && Next(s, step).versions[id].runs == [] && !Frozen(Next(s, step).versions[id])
  {
  }

  /** Every accepted edit leaves the version without solver runs. */
  lemma EditsUnsolve(s: State, step: Step, id: Id)
    requires id in s.versions && Next(s, step).versions[id].entries != s.versions[id].entries && !step.Finish?
    ensures Next(s, step).versions[id].runs == [] && !Frozen(Next(s, step).versions[id])
  {
  }
}

/** The handlers that change stored versions, statement by statement; each is one step of the life cycle. */
module Store {
  import opened Model
  import opened Lifecycle
  import Solver
  import Engine
  import EdgeColoring
  import Validator

  /** The trigger on an entry change: the version's solver runs are deleted. */
  function Triggered(v: Version, entries: seq<Entry>): Version {
    v.(entries := entries, runs := [])
  }

  /** `status = 'DRAFT'` where the status is validating or validated. */
  function Reopened(v: Version): Version {
    if v.status == Validating || v.status == Validated then v.(status := Draft) else v
  }

  class VersionStore {
    var versions: map<Id, Version>
    var jobs: map<Id, Id>

    ghost function Current(): State
      reads this
    {
      State(versions, jobs)
    }

    constructor ()
      ensures Current() == EMPTY
    {
      versions, jobs := map[], map[];
    }

    /** `CreateVersion`: the next number, and the entries of the latest version as far as they are copied. */
    method CreateVersion(id: Id, timetable: Id) returns (ghost derived: seq<Id>)
      modifies `versions
      ensures IsLatest(old(versions), timetable, derived) && Current() == Next(old(Current()), Create(id, timetable, derived))
    {
      hide CopiedLesson, Copied;
      var found := false;
      var latest: Id := NO_ID;
      var keys := KeysInSomeOrder(versions);
      for k := 0 to |keys|
        invariant found <==> exists j | 0 <= j < k :: versions[keys[j]].timetable == timetable
        invariant found ==> latest in versions && versions[latest].timetable == timetable
        invariant forall j | 0 <= j < k && versions[keys[j]].timetable == timetable :: found && versions[keys[j]].number <= versions[latest].number
      {
        if versions[keys[k]].timetable == timetable && (!found || versions[latest].number < versions[keys[k]].number) {
          found, latest := true, keys[k];
        }
      }
      derived := if found then [latest] else [];
      assert forall other | other in versions :: other in keys;
      if id in versions {
        return;
      }
      var number := if found then versions[latest].number + 1 else 1;
      var copied := if found then Copied(versions[latest].entries) else [];
      versions := versions[id := Version(timetable, number, Draft, copied, [])];
    }

    /** `versionEditable`. */
    method VersionEditable(id: Id) returns (editable: bool)
      ensures editable <==> id in versions && Editable(versions[id])
    {
      editable := id in versions && versions[id].status != Published && versions[id].status != Superseded && versions[id].status != Archived;
    }

    /** `createEntry` and `saveEntry`. */
    method CreateEntry(id: Id, entry: Entry, accepted: bool)
      modifies `versions
      ensures Current() == Next(old(Current()), Add(id, entry, accepted))
    {
      var editable := VersionEditable(id);
      if !editable || !accepted {
        return;
      }
      versions := versions[id := Triggered(versions[id], versions[id].entries + [entry])];
      versions := versions[id := Reopened(versions[id])];
    }

    /** `updateEntry` and `saveEntry`. */
    method UpdateEntry(id: Id, target: Id, lesson: Placement, accepted: bool)
      modifies `versions
      ensures Current() == Next(old(Current()), Change(id, target, lesson, accepted))
    {
      if id !in versions || !HasEntry(versions[id], target) {
        return;
      }
      var editable := VersionEditable(id);
      if !editable || !accepted {
        return;
      }
      versions := versions[id := Triggered(versions[id], Replaced(versions[id].entries, target, lesson))];
      versions := versions[id := Reopened(versions[id])];
    }

    /** `deleteEntry`. */
    method DeleteEntry(id: Id, target: Id)
      modifies `versions
      ensures Current() == Next(old(Current()), Remove(id, target))
    {
      var editable := VersionEditable(id);
      if !editable || !HasEntry(versions[id], target) {
        return;
      }
      versions := versions[id := Triggered(versions[id], Without(versions[id].entries, target))];
      versions := versions[id := Reopened(versions[id])];
    }

    /** `ValidateVersion`. */
    method ValidateVersion(id: Id, current: bool, detected: nat)
      modifies `versions
      ensures Current() == Next(old(Current()), Validate(id, current, detected))
    {
      if id !in versions || !current || versions[id].runs == [] {
        return;
      }
      var run := versions[id].runs[|versions[id].runs| - 1];
      var status := Validated;
      if detected > 0 || run.hard > 0 || run.unscheduled > 0 || !(run.status == Solver.Complete || run.status == Solver.CompleteWithSoftViolations) {
        status := Draft;
      }
      if versions[id].status != Published && versions[id].status != Superseded && versions[id].status != Archived {
        versions := versions[id := versions[id].(status := status)];
      }
    }

    /** `publishVersion`: the checks, then the predecessor is superseded and the version published. */
    method PublishVersion(id: Id, current: bool, detected: nat) returns (published: bool)
      modifies `versions
      ensures Current() == Next(old(Current()), Publish(id, current, detected))
      ensures published <==> old(id in versions && current && Publishable(versions[id], detected))
    {
      published := false;
      if !current || id !in versions || versions[id].status != Validated || versions[id].runs == [] {
        return;
      }
      var run := versions[id].runs[|versions[id].runs| - 1];
      if !(run.status == Solver.Complete || run.status == Solver.CompleteWithSoftViolations) || run.unscheduled > 0 || run.hard > 0 || detected > 0 {
        return;
      }
      var timetable := versions[id].timetable;
      versions := map k | k in versions ::
        if versions[k].timetable == timetable && versions[k].status == Published && k != id then versions[k].(status := Superseded) else versions[k];
      versions := versions[id := versions[id].(status := Published)];
      published := true;
      assert versions == Superseding(old(versions), id);
    }

    /** `GenerateVersion` up to the guard of `loadEngineProblem`. */
    method BeginGeneration(job: Id, id: Id)
      modifies `jobs
      ensures Current() == Next(old(Current()), Begin(job, id))
    {
      if id in versions && versions[id].status != Published && versions[id].status != Superseded && job !in jobs {
        jobs := jobs[job := id];
      }
    }

    /** `persistSolveResult`: the entries are replaced one by one, the trigger running for each of them; then the run is stored. */
    method PersistSolveResult(job: Id, run: Run) returns (ghost entries: seq<Entry>)
      requires job in jobs
      modifies this
      ensures multiset(LessonsOf(entries)) == multiset(run.lessons) && Current() == Next(old(Current()), Finish(job, run, entries))
    {
      var lessons := Shuffle(run.lessons);
      entries := Numbered(lessons);
      var id := jobs[job];
      jobs := jobs - {job};
      if id !in versions || (run.status != Solver.Infeasible && (versions[id].status == Published || versions[id].status == Superseded)) {
        return;
      }
      var v := versions[id];
      if run.status != Solver.Infeasible {
        v := DeleteEntries(v);
        v := InsertEntries(v, lessons);
        assert [] + Numbered(lessons) == Numbered(lessons);
      }
      v := v.(runs := v.runs + [run], status := Draft);
      versions := versions[id := v];
      assert v == Persisted(old(versions[id]), run, entries);
    }

    /** `GenerateVersion` after the guard: the solver's result is stored. What the solver promises makes the step an honest one, so
        the store stays in order. */
    method FinishGeneration(job: Id, problem: Problem, config: Engine.Config) returns (result: Solver.Result, ghost entries: seq<Entry>)
      requires job in jobs && Solver.Proper(problem, config)
      modifies this
      ensures Current() == Next(old(Current()), Finish(job, RunOf(problem, result), entries)) && Honest(Finish(job, RunOf(problem, result), entries))
      ensures old(Fine(Current())) ==> Fine(Current())
    {
      hide *;
      ghost var tried, before := [], Current();
      result, tried := Solver.Solve(problem, config, EdgeColoring.Singles);
      SolvedIsHonest(problem, result);
      entries := PersistSolveResult(job, RunOf(problem, result));
      StoredIsHonest(job, RunOf(problem, result), entries);
      if Fine(before) {
        StepIsFine(before, Finish(job, RunOf(problem, result), entries));
      }
    }

    /** `invalidateDraftsForTermTx`. */
    method InvalidateDrafts(timetables: set<Id>)
      modifies `versions
      ensures Current() == Next(old(Current()), Invalidate(timetables))
    {
      versions := map k | k in versions ::
        if versions[k].timetable in timetables && versions[k].status != Published && versions[k].status != Superseded && versions[k].status != Archived
        then versions[k].(runs := []) else versions[k];
    }
  }

  lemma SolvedIsHonest(problem: Problem, result: Solver.Result)
    requires Solver.Succeeded(result.status) ==> Validator.ValidSchedule(problem, result.placements)
    requires Solver.Succeeded(result.status) ==> result.report.hard == 0 && result.report.unscheduled == 0
    ensures HonestRun(RunOf(problem, result))
  {
    hide Validator.ValidSchedule;
  }

  lemma StoredIsHonest(job: Id, run: Run, entries: seq<Entry>)
    requires HonestRun(run) && multiset(LessonsOf(entries)) == multiset(run.lessons)
    ensures Honest(Finish(job, run, entries))
  {
    hide HonestRun;
  }

  /** Entries for the lessons; their identifiers are numbers here. */
  function Numbered(lessons: seq<Placement>): (r: seq<Entry>)
    ensures LessonsOf(r) == lessons
  {
    seq(|lessons|, i requires 0 <= i < |lessons| => Entry(i + 1, lessons[i]))
  }

  /** All entries go, one row after the other. */
  method DeleteEntries(v: Version) returns (r: Version)
    ensures r == if v.entries == [] then v else Triggered(v, [])
  {
    r := v;
    while r.entries != []
      invariant r == v || (v.entries != [] && r == Triggered(v, r.entries))
      decreases |r.entries|
    {
      r := Triggered(r, r.entries[1..]);
    }
  }

  /** The new entries come, one row after the other. */
  method InsertEntries(v: Version, lessons: seq<Placement>) returns (r: Version)
    ensures r == if lessons == [] then v else Triggered(v, v.entries + Numbered(lessons))
  {
    r := v;
    for k := 0 to |lessons|
      invariant r == if k == 0 then v else Triggered(v, v.entries + Numbered(lessons)[..k])
    {
      assert Numbered(lessons)[..k + 1] == Numbered(lessons)[..k] + [Entry(k + 1, lessons[k])];
      assert k == 0 ==> Numbered(lessons)[..k] == [];
      r := Triggered(r, r.entries + [Entry(k + 1, lessons[k])]);
      assert r.entries == v.entries + Numbered(lessons)[..k + 1];
    }
    assert Numbered(lessons)[..|lessons|] == Numbered(lessons);
  }
}

/** What each step of the life cycle changes, and what it leaves alone. */
module LifecycleLaws {
  import opened Model
  import opened Lifecycle
  import opened Lessons
  import Solver

  // ----- what stays

  /** The step is a request about the version, or a report of its generation. */
  predicate Concerns(s: State, step: Step, id: Id) {
    match step
    case Create(version, _, _) => version == id
    case Add(version, _, _) => version == id
    case Change(version, _, _, _) => version == id
    case Remove(version, _) => version == id
    case Validate(version, _, _) => version == id
    case Publish(version, _, _) => version == id
    case Begin(_, _) => false
    case Finish(job, _, _) => job in s.jobs && s.jobs[job] == id
    case Invalidate(_) => false
  }

  /** No step removes a version, or changes its timetable or its number. Steps that do not concern it change nothing of it, except that a
      publication of the timetable supersedes it and an invalidation takes its solver runs. */
  lemma OthersStay(s: State, step: Step, id: Id)
    requires id in s.versions
    ensures id in Next(s, step).versions
    ensures var v, w := s.versions[id], Next(s, step).versions[id];
            && w.timetable == v.timetable && w.number == v.number
            && (!Concerns(s, step, id) ==>
                  && w.entries == v.entries
                  && (w.status != v.status ==> v.status == Published && w.status == Superseded && step.Publish? && step.version in s.versions
                                               && s.versions[step.version].timetable == v.timetable)
                  && (w.runs != v.runs ==> w.runs == [] && step.Invalidate? && v.timetable in step.timetables && Editable(v)))
  {
  }

  lemma {:induction false} VersionsStay(s: State, steps: seq<Step>, id: Id)
    requires id in s.versions
    ensures id in After(s, steps).versions
    ensures After(s, steps).versions[id].timetable == s.versions[id].timetable && After(s, steps).versions[id].number == s.versions[id].number
  {
    if steps != [] {
      var before := steps[..|steps| - 1];
      VersionsStay(s, before, id);
      hide Next;
      OthersStay(After(s, before), steps[|steps| - 1], id);
    }
  }

  /** The solver runs of a version go exactly when it is editable and its timetable is among those named. */
  lemma InvalidatedIff(s: State, timetables: set<Id>, id: Id)
    requires id in s.versions && s.versions[id].runs != []
    ensures Next(s, Invalidate(timetables)).versions[id].runs == [] <==> s.versions[id].timetable in timetables && Editable(s.versions[id])
    ensures Next(s, Invalidate(timetables)).versions[id].(runs := s.versions[id].runs) == s.versions[id]
    ensures Next(s, Invalidate(timetables)).jobs == s.jobs
  {
  }

  // ----- entries

  /** Where two sequences of entries have the same ones besides those with this identifier, in the same order. */
  ghost predicate SameBesides(a: seq<Entry>, b: seq<Entry>, id: Id) {
    Without(a, id) == Without(b, id)
  }

  /** Exactly the entries with the identifier go, and each of the others stays as often as it was there. */
  lemma {:induction false} WithoutIs(entries: seq<Entry>, id: Id)
    ensures forall e :: multiset(Without(entries, id))[e] == if e.id == id then 0 else multiset(entries)[e]
  {
    if entries != [] {
      var rest := entries[1..];
      WithoutIs(rest, id);
      assert entries == [entries[0]] + rest;
      if entries[0].id != id {
        assert multiset(Without(entries, id)) == multiset{entries[0]} + multiset(Without(rest, id));
      }
      assert multiset(entries) == multiset{entries[0]} + multiset(rest);
    }
  }

  /** Entries that stay keep their order: a prefix loses what it would lose alone. */
  lemma {:induction false} WithoutSplits(a: seq<Entry>, b: seq<Entry>, id: Id)
    ensures Without(a + b, id) == Without(a, id) + Without(b, id)
  {
    if a == [] {
      assert a + b == b;
    } else {
      assert (a + b)[1..] == a[1..] + b && (a + b)[0] == a[0];
      WithoutSplits(a[1..], b, id);
    }
  }

  /** Exactly the entries with the identifier change, and only their lesson. */
  lemma {:induction false} ReplacedIs(entries: seq<Entry>, id: Id, lesson: Placement)
    ensures |Replaced(entries, id, lesson)| == |entries|
    ensures forall i | 0 <= i < |entries| ::
              && Replaced(entries, id, lesson)[i].id == entries[i].id
              && Replaced(entries, id, lesson)[i].lesson == if entries[i].id == id then lesson else entries[i].lesson
  {
    if entries != [] {
      ReplacedIs(entries[1..], id, lesson);
    }
  }

  /** A change of one entry or the removal of one entry leaves all others as they are, in their order; and afterwards the version is a
      draft without solver runs, or has the status it had. */
  lemma EditsAreLocal(s: State, step: Step, id: Id)
    requires id in s.versions && Concerns(s, step, id) && (step.Change? || step.Remove?)
    ensures var v, w := s.versions[id], Next(s, step).versions[id];
            && SameBesides(v.entries, w.entries, step.target)
            && (w == v || (w.runs == [] && Editable(v) && HasEntry(v, step.target)
                           && w.status == if v.status == Validating || v.status == Validated then Draft else v.status))
    ensures step.Remove? && Editable(s.versions[id]) ==> !HasEntry(Next(s, step).versions[id], step.target)
  {
    var v := s.versions[id];
    WithoutTwice(v.entries, step.target);
    if step.Change? {
      ReplacedBesides(v.entries, step.target, step.lesson);
    } else {
      WithoutIs(v.entries, step.target);
      forall e | e in Without(v.entries, step.target)
        ensures e.id != step.target
      {
        assert multiset(Without(v.entries, step.target))[e] > 0;
      }
    }
  }

  lemma {:induction false} WithoutTwice(entries: seq<Entry>, id: Id)
    ensures Without(Without(entries, id), id) == Without(entries, id)
  {
    if entries != [] {
      WithoutTwice(entries[1..], id);
    }
  }

  lemma {:induction false} ReplacedBesides(entries: seq<Entry>, id: Id, lesson: Placement)
    ensures Without(Replaced(entries, id, lesson), id) == Without(entries, id)
  {
    if entries != [] {
      ReplacedBesides(entries[1..], id, lesson);
    }
  }

  /** A new entry undone: adding an entry with an identifier of its own and removing it gives the same entries. */
  lemma AddThenRemove(s: State, id: Id, entry: Entry)
    requires id in s.versions && Editable(s.versions[id]) && !HasEntry(s.versions[id], entry.id)
    ensures var added := Next(s, Add(id, entry, true));
            && HasEntry(added.versions[id], entry.id) && |added.versions[id].entries| == |s.versions[id].entries| + 1
            && Next(added, Remove(id, entry.id)).versions[id].entries == s.versions[id].entries
  {
    var entries := s.versions[id].entries;
    assert (entries + [entry])[|entries|] == entry;
    WithoutSplits(entries, [entry], entry.id);
    assert Without([entry], entry.id) == [] by {
      assert [entry][1..] == [];
    }
    NothingWithout(entries, entry.id);
  }

  lemma {:induction false} NothingWithout(entries: seq<Entry>, id: Id)
    requires forall e | e in entries :: e.id != id
    ensures Without(entries, id) == entries
  {
    if entries != [] {
      NothingWithout(entries[1..], id);
    }
  }

  // ----- statuses

  /** The latest solver run succeeded and left nothing unscheduled and no conflict. */
  predicate Solved(v: Version) {
    && v.runs != []
    && var run := v.runs[|v.runs| - 1];
       && (run.status == Solver.Complete || run.status == Solver.CompleteWithSoftViolations)
       && run.hard == 0 && run.unscheduled == 0
  }

  /** A version that was not validated becomes so by its validation only: it is editable, its latest run succeeded, the academic data is
      current, and no conflict is detected. Any other outcome of a validation makes an editable version with a run a draft. */
  lemma ValidatedIff(s: State, step: Step, id: Id)
    requires id in s.versions
    ensures s.versions[id].status != Validated ==>
              (Next(s, step).versions[id].status == Validated <==>
                 && step.Validate? && step.version == id && step.current && step.detected == 0 && Editable(s.versions[id]) && Solved(s.versions[id]))
    ensures step.Validate? && step.version == id && step.current && Editable(s.versions[id]) && s.versions[id].runs != [] ==>
              (Next(s, step).versions[id].status == if step.detected == 0 && Solved(s.versions[id]) then Validated else Draft)
  {
  }

  /** A version becomes published by its publication only: it is validated, its latest run succeeded, the data is current, and no
      conflict is detected. Exactly then the published version of its timetable is superseded. */
  lemma PublishedIff(s: State, step: Step, id: Id)
    requires id in s.versions
    ensures s.versions[id].status != Published ==>
              (Next(s, step).versions[id].status == Published <==>
                 step.Publish? && step.version == id && step.current && step.detected == 0 && s.versions[id].status == Validated && Solved(s.versions[id]))
    ensures s.versions[id].status != Superseded ==>
              (Next(s, step).versions[id].status == Superseded <==>
                 && s.versions[id].status == Published
                 && exists other | other in s.versions && s.versions[other].timetable == s.versions[id].timetable && other != id ::
                      s.versions[other].status != Published && Next(s, step).versions[other].status == Published)
  {
    if step.Publish? && s.versions[id].status == Published && Next(s, step).versions[id].status == Superseded {
      assert s.versions[step.version].status == Validated && Next(s, step).versions[step.version].status == Published;
    }
  }

  /** Validating a version and publishing it at once succeeds exactly for editable versions whose latest run did, if nothing is detected. */
  lemma PublishedInTwoSteps(s: State, id: Id)
    requires id in s.versions && s.versions[id].status != Published
    ensures Next(Next(s, Validate(id, true, 0)), Publish(id, true, 0)).versions[id].status == Published <==>
              (Editable(s.versions[id]) && Solved(s.versions[id]))
  {
    ValidatedIff(s, Validate(id, true, 0), id);
    OthersStay(s, Validate(id, true, 0), id);
    PublishedIff(Next(s, Validate(id, true, 0)), Publish(id, true, 0), id);
    SameRuns(s, id);
    hide Next, Editable, Solved;
  }

  lemma SameRuns(s: State, id: Id)
    requires id in s.versions
    ensures Solved(Next(s, Validate(id, true, 0)).versions[id]) <==> Solved(s.versions[id])
    ensures Next(s, Validate(id, true, 0)).versions[id].status == Validated ==>
              Editable(s.versions[id]) && (Solved(s.versions[id]) ==> Next(s, Validate(id, true, 0)).versions[id].status == Validated)
  {
  }

  // ----- numbers

  /** The versions of every timetable are numbered from one, without gap and without repetition. */
  ghost predicate NumberedInOrder(s: State) {
    && (forall a, b | a in s.versions && b in s.versions && a != b && s.versions[a].timetable == s.versions[b].timetable ::
          s.versions[a].number != s.versions[b].number)
    && forall a | a in s.versions :: s.versions[a].number >= 1 && (s.versions[a].number > 1 ==> HasNumber(s, s.versions[a].timetable, s.versions[a].number - 1))
  }

  ghost predicate HasNumber(s: State, timetable: Id, number: int) {
    exists b | b in s.versions :: s.versions[b].timetable == timetable && s.versions[b].number == number
  }

  lemma NumberStays(s: State, step: Step, timetable: Id, number: int)
    requires HasNumber(s, timetable, number)
    ensures HasNumber(Next(s, step), timetable, number)
  {
    var b :| b in s.versions && s.versions[b].timetable == timetable && s.versions[b].number == number;
    OthersStay(s, step, b);
  }

  /** Only a creation adds a version: a draft without solver runs whose number is one more than that of every version of the timetable. */
  lemma NewVersion(s: State, step: Step, id: Id)
    requires id in Next(s, step).versions && id !in s.versions
    ensures step.Create? && step.version == id
    ensures var v := Next(s, step).versions[id];
            && v.timetable == step.timetable && v.status == Draft && v.runs == []
            && (forall k | k in s.versions && s.versions[k].timetable == v.timetable :: s.versions[k].number < v.number)
            && (v.number > 1 ==> HasNumber(s, v.timetable, v.number - 1)) && v.number >= 1
  {
  }

  lemma NumberedStep(s: State, step: Step)
    requires NumberedInOrder(s)
    ensures NumberedInOrder(Next(s, step))
  {
    var t := Next(s, step);
    forall a | a in t.versions
      ensures t.versions[a].number >= 1 && (t.versions[a].number > 1 ==> HasNumber(t, t.versions[a].timetable, t.versions[a].number - 1))
    {
      if a in s.versions {
        OthersStay(s, step, a);
      } else {
        NewVersion(s, step, a);
      }
      if t.versions[a].number > 1 {
        NumberStays(s, step, t.versions[a].timetable, t.versions[a].number - 1);
      }
    }
    forall a, b | a in t.versions && b in t.versions && a != b && t.versions[a].timetable == t.versions[b].timetable
      ensures t.versions[a].number != t.versions[b].number
    {
      if a in s.versions {
        OthersStay(s, step, a);
      } else {
        NewVersion(s, step, a);
      }
      if b in s.versions {
        OthersStay(s, step, b);
      } else {
        NewVersion(s, step, b);
      }
      hide Next;
    }
  }

  /** Over all runs the versions of a timetable are numbered in the order of their creation. */
  lemma {:induction false} AlwaysNumbered(steps: seq<Step>)
    ensures NumberedInOrder(After(EMPTY, steps))
  {
    if steps != [] {
      AlwaysNumbered(steps[..|steps| - 1]);
      hide NumberedInOrder, Next;
      NumberedStep(After(EMPTY, steps[..|steps| - 1]), steps[|steps| - 1]);
    }
  }

  // ----- copies

  /** A derived version has an entry for each entry of the latest version of its timetable: with the same teacher, subject, resource and
      periods, for the same cohort unless its group has several, and with nothing that ties it to an assignment. */
  lemma DerivedCopies(s: State, step: Step, id: Id, latest: Id)
    requires step.Create? && step.version == id && id !in s.versions && id in Next(s, step).versions
    requires latest in s.versions && s.versions[latest].timetable == step.timetable
    requires forall k | k in s.versions && s.versions[k].timetable == step.timetable && k != latest :: s.versions[k].number < s.versions[latest].number
    ensures var from, to := s.versions[latest].entries, Next(s, step).versions[id].entries;
            && |to| == |from|
            && forall i | 0 <= i < |from| ::
                 var p, q := from[i].lesson, to[i].lesson;
                 && q.teacher == p.teacher && q.subject == p.subject && q.resource == p.resource && q.periods == p.periods
                 && q.double == p.double && (p.group == NO_ID ==> q.cohort == p.cohort) && q.assignment == NO_ID && q.group == NO_ID && q.block == NO_ID
  {
    assert step.derived == [latest] by {
      assert IsLatest(s.versions, step.timetable, step.derived);
      assert step.derived != [];
      assert step.derived[0] == latest;
    }
  }
}

# Timetabling: solver, life cycle, calendar and outbox

A Dafny model of the timetabling service and proofs about it. `dafny verify dfyconfig.toml` checks the project.

The service turns teaching demand (assignments of a teacher to a cohort, with a number of weekly periods and of double lessons)
into a weekly timetable. The model follows the program's own structure:

- **The ordinary solver** (`Matching`, `EdgeColoring`, `TeacherMatching`, `Adjacency`, `Engine`, `ColorLessons`, `Filling`,
  `Repair`, `Attempt`, `Vacancies`, `Solver`). Demand is a bipartite multigraph of teachers and cohorts. It is padded to a regular one, and one
  perfect matching per colour is taken away with augmenting searches; colours become periods or adjacent pairs of periods. What is
  left is filled by maximum matchings per cell and by two-lesson exchanges. The attempt's state (`AttemptState`, `Ledger`) is a
  class whose invariant ties the occupancy maps to the lessons and the lessons to the demand.
- **The preflight** (`Preflight`, and what it means counted one by one: `Counting`, `PreflightMeaning`) and **the validator**
  (`Validator`, `Lessons`), each proved against its own specification. Three
  results join them to the solver: what a silent preflight guarantees the solver achieves (`Attempt`, `Agreement`), a valid
  timetable silences the preflight exactly when it covers the week as the preflight takes it (`Necessity`), and so the solver decides
  the demand it is made for (`Solver.Solve`). `OrdinaryGap` has small problems at the edges (`SmallWeek` is their week).
- **The audience solver** (`Tasks`, `DoubleDemand`, `AudiencePreflight`, `AudienceMeaning`, `Audience`, `AudienceSolver`,
  `AudienceAttempt`, `AudienceVacancies`, `AudienceAgreement`, `Simultaneity`, `AudienceGap`): lessons for whole cohorts and lessons for listed learners, groups that merge the demand of several assignments, and
  blocks of groups that run at the same time.
- **The generated timetables** (`Rotation`, `Simulation`): a Latin rotation that solves the problem derived from it, for all sizes.
- **The life cycle of versions** (`Lifecycle`, `LifecycleLaws`, `Store`): handlers and the trigger as steps of a state machine, with safety over all
  runs.
- **The bell-period generator** (`Calendar`, `CalendarMeaning`) and **the outbox** (`Outbox`).

Identifiers are natural numbers and the empty string is zero. Shuffles, random priorities and the order of maps are arbitrary, so
every statement holds for all of them. The clock may answer anything; `timeless` marks runs whose deadline does not pass. Periods,
assignments, groups and blocks have identifiers of their own (`WellFormed`, `GroupsNamed`).

Findings, each proved in the model, with an input and the exact condition where the code fails a property:

- The test of a parallel round looks at every member against the same state. Members that share a teacher, a cohort, a learner or a
  resource can all pass it and then be booked at once; the audience preflight only compares listed learners.
  `AudienceGap.RoundDoubleBooks` is an input with a shared teacher and `AudienceGap.RoundOverbooks` one with different people and a
  shared room. `Audience.RoundIsExclusive` is the exact condition: the members can happen together, and every resource has room for
  all of them on top of what is booked.
- The audience preflight does not compare what the groups of a block ask for. `AudienceGap.UnevenBlock` is a block of groups with one
  and two periods: one round places both, no other round fits, and the second group has its other period alone, so that the block is
  not simultaneous although everything is placed. For a block with groups of its own, uneven demand is never simultaneous once it is
  placed; with even demand it is, whenever one group places everything in rounds of the block (`Simultaneity.SimultaneousByDemand`,
  `Simultaneity.ExhaustedIff`).
- The audience preflight does not look at the qualification of teachers, which the validator requires. `AudienceGap.UnqualifiedLesson`
  is an input. Authority is violated exactly when a task with a lesson is not for its teacher (`AudienceAgreement.AuthorityIff`): never
  where the check of the ordinary preflight would pass, and always, once everything is placed, where it would not
  (`AudienceAgreement.AuthorityByDemand`).
- A generation that began before a publication and then reports that it was infeasible turns the published version back into a
  draft: the status is only checked for other results. `Lifecycle.PublishedCanReopen` is such a run, `Lifecycle.FrozenStep` says that
  it is the only way, and `Lifecycle.FrozenForGood` that a version stays published or superseded over every run exactly when no
  generation of it is under way.
- With full coverage the preflight compares a cohort's demand with all usable periods, also those in which the cohort is unavailable.
  `OrdinaryGap.CoveredButRejected` is a problem that it rejects although a valid timetable covers it. For problems that can be solved,
  `Necessity.MismatchIff` and `Necessity.FeasibleIff` say exactly when it is silent: every cohort with demand has a lesson in every
  usable period, and no other cohort is ever available.
- The retry delay overflows a 64-bit integer for a limit of more than thirty attempts (`Outbox.DelayOverflows`,
  `Outbox.DelaysAreSafeIff`).
- A derived version copies lessons without their groups, blocks, learners and assignments (`Store.VersionStore.CreateVersion`).
- The validator does not look at double lessons: which ones are asked for makes no difference to it
  (`Validator.DoublesAreNotChecked`), and a course that asks for a double lesson is valid with single ones
  (`OrdinaryGap.SinglesForDouble`). Only the solver's results (`Attempt.Complete`) say that they were honoured.
- The validator faults on a lesson tagged with a block that its group does not belong to, and on nothing else (`AudienceGap.WrongTag`, `Validator.ValidateSchedule`).

## Model

| member | source | states |
|---|---|---|
| `Matching.Matcher.Visit` | internal/scheduling/engine.go:365-380 | The search for a left vertex either covers exactly one vertex more, keeping every covered one, or changes nothing and leaves a closed set of covered vertices that it cannot leave; a vertex confined to a dead set is never covered |
| `Matching.Matcher.CoverAll` | internal/scheduling/engine.go:381-383 | One search per left vertex: the covered vertices are those whose search succeeded, and every other one is confined to one common dead set |
| `Matching.AugmentedIsMatching` | internal/scheduling/engine.go:366-380 | Reassigning holders along a successful search leaves a matching |
| `Matching.MaximumCardinality` | internal/scheduling/engine.go:516-534 | A matching whose uncovered lefts are confined to a dead set is of maximum cardinality (the König certificate) |
| `EdgeColoring.ExactBipartiteColors` | internal/scheduling/engine.go:254-396 | Exactly as many colours as the largest load of a teacher or cohort; no colour has a teacher or a cohort twice; every assignment occurs exactly as often as the mode asks |
| `EdgeColoring.BuildEdges` | internal/scheduling/engine.go:295-323 | One edge per unit of demand between the right vertices, with the true degrees and their maximum |
| `EdgeColoring.Pad` | internal/scheduling/engine.go:324-344 | Padding edges make the multigraph regular of the largest degree and add no lesson |
| `EdgeColoring.BalancedIsRegular` | internal/scheduling/engine.go:325-344 | When one side has full degree everywhere and the other nowhere more, the multigraph is regular on both sides |
| `EdgeColoring.RegularHasNoDeadEnd` | internal/scheduling/engine.go:361-383 | In a regular multigraph a left vertex that is not covered is never confined to a dead set: counting edges refutes it |
| `EdgeColoring.MatchColor` | internal/scheduling/engine.go:352-383 | The searches of one round cover every vertex of the still regular multigraph |
| `EdgeColoring.PerfectTakesOne` | internal/scheduling/engine.go:385-393 | Taking away a perfect matching lowers every degree by one, so the rest is regular again |
| `EdgeColoring.PeelColor` | internal/scheduling/engine.go:351-394 | One round: the colour is a set of lessons that can happen at once, the rest is regular of degree one less, and no edge is lost or counted twice |
| `EdgeColoring.DegreeIsLoad` | internal/scheduling/engine.go:303-322 | The degree of a vertex is the number of units of the assignments that end there |
| `EdgeColoring.LargestLoad` | internal/scheduling/engine.go:297-322 | The running maximum of the degrees is the largest load of a teacher or cohort |
| `TeacherMatching.MaximumMatching` | internal/scheduling/engine.go:504-540 | Edges of the input, no two with the same teacher or cohort, and as many as any such choice has, for every order of the vertices |
| `Preflight.MaximumEligibleCoverage` | internal/scheduling/preflight.go:190-223 | The size of a largest simultaneous choice of eligible lessons in the period |
| `Adjacency.AdjacentCapacity` | internal/scheduling/preflight.go:225-236 | The greedy scan counts as many disjoint pairs of adjacent available periods as there can be |
| `Adjacency.AdjacentPairs` | internal/scheduling/engine.go:130-137 | The pairs of the solver are those of the same scan |
| `Adjacency.GreedyIsMost` | internal/scheduling/preflight.go:225-236 | No set of disjoint adjacent pairs is larger than what the scan takes, and the scan attains it |
| `Lessons.PairsCount` | internal/scheduling/validator.go:114-129 | The increments of one lesson: each of its keys in each of its periods, with multiplicity |
| `Lessons.BookedIffCounted` | internal/scheduling/validator.go:283-288 | A nested counter is positive exactly when some lesson uses the key in the period |
| `Lessons.ExclusiveIffNoClash` | internal/scheduling/validator.go:153-166 | The counters of a kind never exceed one exactly when no two lessons, and no lesson twice, use a key in the same period |
| `Validator.ValidateSchedule` | internal/scheduling/validator.go:11-281 | The check faults exactly on a lesson tagged with an active block that its group does not belong to; otherwise exactly the violated invariants are reported, and as many failures as there are faulty covers, cohorts, learners and periods of lessons, overused cells, unmet demands, overworked teachers, groups out of step and gaps in the coverage, each counted by cardinality; the shortfall plus what mandatory assignments are given is what they ask for; and the verdict is positive exactly for the schedules of the pairwise specification |
| `Validator.ValidIffNothingViolated` | internal/scheduling/validator.go:38-281 | Nothing is violated exactly when lessons are sound, nobody is in two places at once, demand is met exactly, workloads and blocks are kept, and coverage is full when asked for |
| `Validator.SoundIffFaultless` | internal/scheduling/validator.go:39-138 | A lesson fails none of its own checks exactly when it is authorized, in scope, registered, qualified, eligible, well timed and in open periods |
| `Validator.NotOverbooked` | internal/scheduling/validator.go:167-173 | No resource counter exceeds its capacity, whether or not the counter exists |
| `Validator.CheckLesson` | internal/scheduling/validator.go:38-138 | The failures of one lesson are those of the specification of a faulty lesson |
| `Validator.CheckOccupancy` | internal/scheduling/validator.go:153-173 | One failure for every cell of a counter that exceeds the capacity |
| `Validator.CountLesson` | internal/scheduling/validator.go:99-138 | The counters after a lesson are the bookings, credits and loads of all lessons so far |
| `Validator.CheckDemand` | internal/scheduling/validator.go:175-187 | Demand fails exactly when some mandatory assignment is not credited exactly, and the shortfall adds up what is missing |
| `Validator.CheckWorkload` | internal/scheduling/validator.go:188-202 | A failure is raised exactly when a teacher has more lessons than the limit or the available periods |
| `Validator.CheckBlocks` | internal/scheduling/validator.go:204-230 | A fault exactly on a mistagged lesson; otherwise a failure exactly when the members of an active block run in different periods |
| `Validator.CheckFullCoverage` | internal/scheduling/validator.go:232-264 | A failure is raised exactly when a learner, or without learners a cohort, misses or doubles a mandatory period it is available for |
| `Validator.ShortfallIsUnmet` | internal/scheduling/validator.go:175-187 | Unmet demand and exact credit: a positive shortfall means that some mandatory demand is not met |
| `Validator.ShortfallIsTheRest` | internal/scheduling/validator.go:175-187 | For every schedule, the shortfall plus the sum of the smaller of credit and weekly periods over the mandatory schedulable assignments is the sum of their weekly periods |
| `Validator.NothingGiven` | internal/scheduling/validator.go:175-187 | An empty timetable misses the whole mandatory demand |
| `Validator.LessonHelps` | internal/scheduling/validator.go:175-187 | A lesson of as many periods as its assignment still lacks, or fewer, lowers the shortfall by exactly these |
| `Validator.HitsAreElements` | internal/scheduling/validator.go:188-202 | Where a list has no repetitions, the failures of its members are as many as the members that fail |
| `Validator.DoublesAreNotChecked` | internal/scheduling/validator.go:84-97 | Two problems that differ only in the double lessons they ask for have the same valid timetables |
| `Preflight.AnalyzeOrdinary` | internal/scheduling/preflight.go:29-188 | The issues are exactly those of the specification, and there is none exactly when the problem is feasible |
| `PreflightMeaning.SilentIff` | internal/scheduling/preflight.go:29-188 | The preflight is silent exactly when there is a scope and a week, every scheduled assignment is sensible, what is asked of every teacher, cohort, resource and of all teachers together fits, counted one by one and doubles as disjoint pairs, and under full coverage every demanded cohort fills the week and every period can be taught to all cohorts at once |
| `PreflightMeaning.ResourceIs` | internal/scheduling/preflight.go:144-161 | A resource is objected to exactly when it is missing or the periods asked of it exceed its capacity times the periods in which it is free |
| `PreflightMeaning.TotalSilent` | internal/scheduling/preflight.go:128-141 | The total is objected to exactly when all periods asked for exceed the seats of all teachers |
| `PreflightMeaning.TeacherIs` | internal/scheduling/preflight.go:96-107 | A teacher is objected to exactly when the periods asked of it exceed its free periods or its limit, or its doubles the disjoint pairs it is free in |
| `PreflightMeaning.CohortIs` | internal/scheduling/preflight.go:108-126 | The same for a cohort, which under full coverage must also fill the week |
| `Preflight.CheckAssignments` | internal/scheduling/preflight.go:51-85 | The issues of single assignments, and demand totals that are the sums over the counted assignments of each teacher, cohort and resource |
| `Preflight.TotalTeacherCapacity` | internal/scheduling/preflight.go:128-138 | The capacities of the teachers of the workspace, summed in whatever order |
| `Preflight.CheckSimultaneous` | internal/scheduling/preflight.go:163-185 | Shortages are raised exactly for the periods with fewer available teachers, or a smaller simultaneous choice, than cohorts to cover |
| `Preflight.CapacitiesRemove` | internal/scheduling/preflight.go:128-138 | The sum over teachers does not depend on the order of the map |
| `Loads.LoadIsCredit` | internal/scheduling/validator.go:130-133 | The load of a teacher, cohort or resource is what its assignments are credited with |
| `Loads.ExclusiveLoad` | internal/scheduling/validator.go:114-133 | Without clashes a key is booked in exactly as many periods as its lessons have |
| `AttemptState.State.Record` | internal/scheduling/engine.go:571-593 | The occupancy maps say exactly what the lessons occupy, before and after a lesson is entered |
| `Ledger.PlaceKeepsCompatible` | internal/scheduling/engine.go:542-569 | A lesson whose teacher, cohort and resource are free keeps the lessons free of clashes |
| `Ledger.PlaceKeepsBalanced` | internal/scheduling/engine.go:588-591 | Placed plus remaining periods, and placed plus remaining doubles, stay what was asked for |
| `Ledger.PlaceKeeps` | internal/scheduling/engine.go:571-593 | Entering a lesson that `canPlace` approves keeps the whole state in order |
| `Ledger.PermutationKeeps` | internal/scheduling/engine.go:245-250 | Sorting the lessons keeps the state in order |
| `Engine.Place` | internal/scheduling/engine.go:571-593 | The lesson is appended, its periods and double are subtracted, its cells become occupied, and the state stays in order |
| `Engine.PlaceableIsFree` | internal/scheduling/engine.go:542-569 | What `canPlace` finds free in the occupancy maps is free among the lessons |
| `Engine.StartAttempt` | internal/scheduling/engine.go:105-113 | An attempt starts with the demand of the schedulable assignments, with room for every double |
| `Engine.PinExisting` | internal/scheduling/engine.go:115-128 | Every existing session is pinned or does not fit, and nothing else is placed |
| `Engine.BudgetExceeded` | internal/scheduling/engine.go:595-602 | The attempt stops, and is marked, when its iterations are used up or its deadline has passed |
| `Engine.SingleCells` | internal/scheduling/engine.go:205-217 | One cell for every usable period, and no two alike |
| `Engine.PairCells` | internal/scheduling/engine.go:130-138 | As many disjoint adjacent pairs of usable periods as the scan finds |
| `ColorLessons.PlaceUnit` | internal/scheduling/engine.go:147-160 | One unit of a colour is placed if its cell is free: a single, a double, or two singles once the doubles are used up |
| `ColorLessons.CellIsFree` | internal/scheduling/engine.go:147-160 | Where nothing restricts the assignments, the cell of a colour is free for every lesson of the colour |
| `ColorLessons.UnitAdvances` | internal/scheduling/engine.go:154-159 | Every unit moves its assignment on: doubles first, then pairs of singles, never more than was asked for |
| `ColorLessons.PhaseBalance` | internal/scheduling/engine.go:139-223 | A phase leaves room for the doubles to come, and nothing at all where every unit could be placed |
| `ColorLessons.RunColoring` | internal/scheduling/engine.go:164-182 | The phase stops only for its budget, and finishes the timetable when nothing restricts the assignments and the busiest teacher and cohort have no more units than there are cells |
| `Filling.CandidateEdges` | internal/scheduling/engine.go:486-502 | The edges stand for exactly the lessons that are wanted and can be placed in the cell |
| `Filling.MatchingOfCandidates` | internal/scheduling/engine.go:189-198 | A maximum matching of the candidates holds different wanted lessons, and at least one whenever there is a candidate |
| `Filling.FillCell` | internal/scheduling/engine.go:189-198 | A cell makes progress exactly when some wanted lesson can be placed in it |
| `Filling.Fill` | internal/scheduling/engine.go:183-200 | The loop ends on the outstanding demand alone, after at most one pass over the cells for every lesson it places and a last one; unless it is stopped, no wanted lesson fits any cell; it only adds lessons, and only a used-up budget stops a timeless run |
| `Filling.OutstandingShrinks` | internal/scheduling/engine.go:588-592 | Every placed lesson reduces the outstanding demand |
| `Repair.ReseatMirrors` | internal/scheduling/engine.go:438-442 | Moving the blocking lesson updates the occupancy maps to what the lessons occupy |
| `Repair.ReseatKeeps` | internal/scheduling/engine.go:429-442 | Moving the blocking lesson to the hole keeps the lessons free of clashes and all balances |
| `Repair.OpenedIsPlaceable` | internal/scheduling/engine.go:415-443 | After the move the wanted lesson fits the opened cell, although the code does not test it again |
| `Repair.Exchange` | internal/scheduling/engine.go:438-444 | The exchange moves exactly the blocking lesson, places exactly the wanted one, and keeps the state in order |
| `Repair.RepairSingles` | internal/scheduling/engine.go:402-449 | An exchange is made exactly when there is one, and it reduces the outstanding demand; otherwise nothing changes |
| `Repair.SameLesson` | internal/scheduling/engine.go:419-425 | Only one lesson can block the cell, so looking at the first one loses nothing |
| `Attempt.LoadIsDemand` | internal/scheduling/preflight.go:77-85 | What the preflight counts as demand is what the colouring counts as load |
| `Attempt.FeasibleIsEnough` | internal/scheduling/preflight.go:96-126 | A silent preflight bounds every load by the cells there are: by the periods for singles, by the adjacent pairs for doubles |
| `Attempt.OneGuard` | internal/scheduling/engine.go:451-484 | The guards of the colouring phases exclude each other, unless there is nothing to schedule |
| `Attempt.DoublePhases` | internal/scheduling/engine.go:139-200 | The phases for double lessons finish demand in doubles or pairs, do not touch demand in singles, and otherwise leave no double lesson that fits any of the pairs |
| `Attempt.SinglePhases` | internal/scheduling/engine.go:202-239 | The phases for single lessons finish demand in singles, leave a finished timetable alone, and otherwise leave no single lesson that fits any usable period |
| `Attempt.RepairPhase` | internal/scheduling/engine.go:240-244 | Exchanges are made as long as there are any, ending on the outstanding demand; no lesson is lost, and only single ones are moved |
| `Attempt.PhasesPay` | internal/scheduling/engine.go:139-244 | What the colourings, the fills and the exchanges may spend together is within the allowance: a lesson pays for a pass over the cells |
| `Vacancies.CanPlaceIff` | internal/scheduling/engine.go:542-569 | `canPlace` approves exactly the lessons for which every period can be taught, teacher and cohort belong here, are available and have no lesson then, and fewer lessons use the resource than it has room for |
| `Vacancies.OpensIff` | internal/scheduling/engine.go:402-449 | The exchanges that are looked for are exactly those in which an assignment without a resource has a single lesson left, its teacher is free, and the single lesson that its cohort has then can move to the hole |
| `Vacancies.NothingVacant` | internal/scheduling/engine.go:224-239 | When the fill of single periods is over, no assignment with periods and no doubles left has a vacant period |
| `Vacancies.NoPairVacant` | internal/scheduling/engine.go:183-200 | When the fill of pairs is over, no double lesson that is left has a vacant pair among the disjoint adjacent pairs of the scan |
| `Vacancies.NoExchangeLeft` | internal/scheduling/engine.go:240-244 | At the end no lesson can move so that an assignment gets the period |
| `Vacancies.LessonParts` | internal/scheduling/engine.go:588-592 | Every lesson is for a scheduled assignment, with its teacher, cohort, subject and resource, in the term of the problem |
| `Attempt.Sort` | internal/scheduling/engine.go:245-250 | The lessons are sorted by first period and assignment, and nothing else changes |
| `Attempt.SolveOrdinary` | internal/scheduling/engine.go:101-252 | After a silent preflight, whatever the shuffles and cut-offs: the validator can find nothing but unmet demand; the attempt pins the existing sessions that fit, then adds lessons until no pair and after that no period is missed, then moves single lessons until no exchange is left, and never uses more iterations than an allowance that depends on the problem alone; all singles, all doubles, or paired demand with enough adjacent pairs is scheduled completely, doubles included, in no more iterations than the largest load |
| `Attempt.FinishedIsComplete` | internal/scheduling/engine.go:206-223 | When nothing remains, every assignment has exactly its periods and doubles, and the schedule is valid |
| `Agreement.SolverAgreesWithValidator` | internal/scheduling/validator.go:38-202 | Lessons as the solver makes them can break nothing but complete demand and full coverage |
| `Agreement.CompleteIsValid` | internal/scheduling/validator.go:175-264 | Lessons that meet every demand are valid, full coverage included |
| `Agreement.FullWeek` | internal/scheduling/preflight.go:123-125 | A cohort whose demand fills the week has a lesson in every usable period |
| `Agreement.CoveredCohortIsDemanded` | internal/scheduling/preflight.go:163-185 | Under full coverage a silent preflight means that every cohort that must be covered has demand |
| `Agreement.NobodyOverworked` | internal/scheduling/validator.go:188-202 | Credit within demand keeps every teacher within the limit |
| `Necessity.FeasibleIff` | internal/scheduling/preflight.go:29-188 | For a problem that some valid timetable of plain lessons solves, doubles honoured: the preflight is silent exactly when there is a scope and a week and, under full coverage, every cohort with demand has a lesson in every usable period and no other cohort is ever available |
| `Necessity.MismatchIff` | internal/scheduling/preflight.go:123-125 | Demand and coverage disagree exactly when a cohort with demand has a usable period without a lesson |
| `Necessity.UndemandedIsShort` | internal/scheduling/preflight.go:163-184 | A cohort without demand that is available in a usable period makes the preflight report an eligibility shortage |
| `Necessity.SolvableIsFeasible` | internal/scheduling/preflight.go:45-185 | If some valid timetable of plain lessons honours all doubles, and full coverage has its plain meaning (mandatory periods, cohorts that are always available), the preflight raises no issue at all |
| `OrdinaryGap.CoveredButRejected` | internal/scheduling/preflight.go:123-125 | A problem with full coverage, solved by a valid timetable and rejected for a period in which its cohort is unavailable |
| `OrdinaryGap.SinglesForDouble` | internal/scheduling/validator.go:175-187 | A valid timetable with two single lessons for a course that asks for a double one |
| `Necessity.DoublesArePairs` | internal/scheduling/preflight.go:105-122 | Nobody has more double lessons than the greedy scan finds pairs |
| `Necessity.CohortLoadFits` | internal/scheduling/preflight.go:109-126 | The lessons of a cohort fit its available periods, and are as many as there are usable periods exactly when there is one in each |
| `Necessity.ResourceLoadFits` | internal/scheduling/preflight.go:148-160 | The lessons with a resource fit its capacity over its available periods |
| `Necessity.TotalLoadFits` | internal/scheduling/preflight.go:128-141 | All lessons together fit the capacities of all teachers |
| `Necessity.PeriodIsCovered` | internal/scheduling/preflight.go:163-184 | The lessons of a covered period are a simultaneous choice as large as the number of cohorts, and no larger than the number of available teachers |
| `Necessity.AssignmentIsFine` | internal/scheduling/preflight.go:55-76 | No issue is raised about an assignment that a valid timetable schedules |
| `Solver.Solve` | internal/scheduling/engine.go:42-99 | Infeasible exactly when the preflight objects; success only for timetables the validator accepts, and exactly when some attempt was valid; where demand is decidable, success exactly when there is a scope and a valid timetable with all doubles that covers the week as the preflight takes it, and with mandatory periods and cohorts that are always available exactly when any valid timetable with all doubles exists; every attempt that is tried ends as an attempt of its kind does; a choice that is not valid is a partial draft unless it was stopped or the time is over; and where the deadline does not pass and the budget is above the allowance, the result is never that the budget was exceeded |
| `Solver.BestFacts` | internal/scheduling/engine.go:61-96 | No more restarts than asked for, or three, none after a flawless attempt, all of them in a timeless run; and no attempt is stopped where the budget is generous |
| `Solver.Trace.TryOnce` | internal/scheduling/engine.go:61-72 | One attempt and the validator's report on it; the trace of attempts grows by both |
| `Solver.Restart` | internal/scheduling/engine.go:61-80 | The choice is the best of all attempts in the trace, each with the validator's own report: as many as allowed, none after a flawless one |
| `Solver.ChosenIsBest` | internal/scheduling/engine.go:72-76 | Keeping the first attempt and letting every later one displace it that passes the test yields, for every list of attempts, one of them that none beats by unscheduled periods, hard conflicts and, among valid ones, soft violations |
| `Solver.DisplacesByMerit` | internal/scheduling/engine.go:72-76 | The test by which an attempt displaces the best one follows that order, and never lets an invalid attempt displace a valid one |
| `Solver.ValidIsChosen` | internal/scheduling/engine.go:72-76 | If any attempt of a list is valid, its choice is valid and has no more soft violations |
| `Solver.AnalyzeFeasibility` | internal/scheduling/preflight.go:29-43 | The preflight of the problem's kind decides |
| `Solver.SolvableIsSolved` | internal/scheduling/engine.go:61-98 | After a silent preflight of decidable demand, the chosen attempt is a solution: valid, with all its doubles |
| `Tasks.AudienceTasks` | internal/scheduling/audience_solver.go:128-200 | One task for every group that shares lessons, and one for what the groups leave of each assignment |
| `AudienceVacancies.TasksAre` | internal/scheduling/audience_solver.go:147-192 | One task for each active group with assignments and demand, just as the group describes it; beyond these only tasks for whole cohorts, each for what is left of a scheduled assignment, with its teacher and its resource |
| `AudienceVacancies.LessonCarries` | internal/scheduling/audience_solver.go:331-399 | A lesson of a task carries its teacher, group, cohorts, learners, assignments and resource, and belongs to the term |
| `Tasks.ShareOut` | internal/scheduling/audience_solver.go:139-167 | What is left of an assignment is its demand less what the groups take |
| `Tasks.OpeningIsConserved` | internal/scheduling/audience_solver.go:128-192 | The tasks that cover an assignment together ask for exactly its weekly periods, when the groups do not claim more |
| `DoubleDemand.DoublesConserved` | internal/scheduling/audience_solver.go:167-192 | Where the groups claim no more than the doubles of an assignment and leave enough periods, its double lessons plus those that its tasks still ask for are its doubles, at the opening and after every lesson |
| `DoubleDemand.AllDoublesAsked` | internal/scheduling/audience_solver.go:167-192 | At the opening the tasks that cover such an assignment together ask for exactly its doubles |
| `DoubleDemand.RestAsksForMost` | internal/scheduling/audience_solver.go:173-179 | What is left of any assignment asks for as many doubles as its demand and its periods allow |
| `Tasks.LessonConserves` | internal/scheduling/audience_solver.go:331-399 | Every lesson moves its periods from owed to credited, for each assignment it covers |
| `Tasks.LessonWorks` | internal/scheduling/audience_solver.go:351-399 | Every lesson moves its periods from owed to taught, for its teacher |
| `AudiencePreflight.AnalyzeAudience` | internal/scheduling/audience_solver.go:452-588 | The codes raised are exactly those of the specification, and none is raised exactly when the problem is feasible for every order of the assignments |
| `AudiencePreflight.CheckGroups` | internal/scheduling/audience_solver.go:464-498 | The issues of the groups, and what they claim of each assignment |
| `AudiencePreflight.CheckCapacities` | internal/scheduling/audience_solver.go:531-561 | A shortage is raised exactly for the teachers and resources that the tasks need more than they can give |
| `AudiencePreflight.CheckBlock` | internal/scheduling/audience_solver.go:562-583 | A block is objected to exactly when it is too small, misses a group, or two of its groups list the same learner |
| `AudiencePreflight.SameObjections` | internal/scheduling/audience_solver.go:504-583 | The order in which assignments become tasks does not matter |
| `AudienceMeaning.ServedIff` | internal/scheduling/audience_solver.go:452-588 | The audience preflight is silent exactly when there is a scope and a week, every group is sensible, groups take no more of an assignment than it has, scheduled assignments are in scope and registered, teachers and resources cope with the shared lessons and what they leave, counted one by one, blocks have taught groups without common learners, and full coverage has learners |
| `AudienceMeaning.ShortIs` | internal/scheduling/audience_solver.go:531-561 | A teacher or resource is short exactly when the periods of work counted one by one exceed its free periods, limit or places |
| `Audience.CanPlaceIsFree` | internal/scheduling/audience_solver.go:271-329 | What `canPlaceTask` approves is free for both kinds of audience: no listed learner meets a lesson of the whole cohort, nor the other way round |
| `AudienceVacancies.CanPlaceTaskIff` | internal/scheduling/audience_solver.go:271-329 | `canPlaceTask` approves exactly the tasks for which in every period teacher, group, cohorts, their learners, listed learners and resource are here, available and free |
| `AudienceVacancies.NothingVacant` | internal/scheduling/audience_solver.go:100-110 | An attempt that is not stopped leaves no task with single lessons to place for which a period is vacant |
| `AudienceVacancies.NoPairVacant` | internal/scheduling/audience_solver.go:90-99 | Nor a task with double lessons to place for which a pair of the scan is vacant |
| `Audience.AddExclusive` | internal/scheduling/audience_solver.go:331-399 | A free lesson keeps everybody and everything in one place at a time |
| `Audience.NobodyTwice` | internal/scheduling/audience_solver.go:300-316 | No learner attends two lessons in a period, where a lesson without a list is for every learner of its cohorts |
| `Audience.RoundIsExclusive` | internal/scheduling/audience_solver.go:229-253 | Members that were each tested against the same state keep the lessons exclusive exactly when they can run together and every resource has room for all of them on top of what is booked |
| `AudienceSolver.LessonKeeps` | internal/scheduling/audience_solver.go:331-399 | A free lesson of a task that wants it keeps occupancy, exclusivity, counters and demand in order |
| `AudienceSolver.PlaceTask` | internal/scheduling/audience_solver.go:331-399 | The lesson is entered, the counters of the books and of the task go down together, and everything stays in order |
| `AudienceSolver.PlaceRound` | internal/scheduling/audience_solver.go:243-249 | Every member gets one lesson in the same periods, nobody else is charged, and if the blocks can run nobody is in two places at once |
| `AudienceSolver.RoundHasRoom` | internal/scheduling/audience_solver.go:229-253 | Members that were each free find room together, where a resource that two of them share has the capacity for every group that uses it in this block and the blocks before |
| `AudienceSolver.PlaceParallel` | internal/scheduling/audience_solver.go:229-253 | A round succeeds with some cell for all members, or no cell suits all of them and nothing changes |
| `AudienceSolver.RoundKeepsLockstep` | internal/scheduling/audience_solver.go:243-249 | A round keeps the periods of all members equal |
| `AudienceSolver.RunBlock` | internal/scheduling/audience_solver.go:61-73 | The members of a block run in the same periods, only they are charged, the loop ends on their remaining demand, it exhausts them exactly when none has any left, and it ends early only when it is cut off or no cell suits the next round |
| `AudienceSolver.RunBlocks` | internal/scheduling/audience_solver.go:45-74 | Whenever the blocks are left, every block that is run is in lockstep and all lessons are theirs; unless they are cut off, every block with groups of its own is exhausted or finds no cell for its next round, and every group that belongs to a block is tagged |
| `AudienceSolver.PlaceFirst` | internal/scheduling/audience_solver.go:255-269 | The task gets a cell in which it can be placed, or there is none and nothing changes |
| `AudienceSolver.RunTask` | internal/scheduling/audience_solver.go:90-110 | Both kinds of lessons of a task are placed until it wants none or none fits |
| `AudienceSolver.StaysSettled` | internal/scheduling/audience_solver.go:45-74 | The rounds of another block leave a block exhausted or stuck |
| `AudienceSolver.StaysLocked` | internal/scheduling/audience_solver.go:88-111 | Lessons of tasks that still had something to place do not touch a block that is done |
| `AudienceAttempt.SolveAudience` | internal/scheduling/audience_solver.go:27-126 | Whatever the shuffles and cut-offs: if the members of every block can run together, nobody is in two places at once across both kinds of audience; periods are conserved, and double lessons wherever groups leave room for them; the blocks leave what they promise, later lessons are only for what they left, and exactly the blocks they exhausted are promised to be simultaneous at the end; nothing owed means every demand is met exactly, double lessons included; an attempt that is not stopped misses no period and no pair; and no attempt uses more iterations than an allowance that depends on the problem alone |
| `AudienceAttempt.RunTasks` | internal/scheduling/audience_solver.go:88-111 | The loop ends on what is owed, and only when nothing is owed or nothing wanted fits anywhere |
| `AudienceAttempt.NothingLeftMeetsDemand` | internal/scheduling/validator.go:175-187 | When no task owes anything, every assignment is credited exactly its weekly periods |
| `AudienceAttempt.NothingLeftMeetsDoubles` | internal/scheduling/audience_solver.go:90-110 | When no task owes anything, every assignment whose groups leave room for its doubles has exactly these double lessons |
| `AudienceAttempt.AllPaid` | internal/scheduling/audience_solver.go:45-111 | Blocks, lessons and last passes together are within the allowance |
| `AudienceAttempt.LockstepIsInStep` | internal/scheduling/validator.go:204-230 | Members in lockstep pass the check for parallel blocks |
| `Simultaneity.SeenTally` | internal/scheduling/validator.go:209-219 | For a block with groups of its own, the validator sees each group run in as many periods as it asks for less what it still has to place |
| `Simultaneity.ExhaustedIff` | internal/scheduling/audience_solver.go:61-73 | The blocks leave such a block exhausted exactly when its groups ask for equally much and one of them has nothing left to place |
| `Simultaneity.InStepNeedsEvenDemand` | internal/scheduling/validator.go:204-230 | A block that is placed completely and passes the check has groups that ask for equally much |
| `Simultaneity.SimultaneousByDemand` | internal/scheduling/audience_solver.go:562-583 | Over a whole attempt: even demand and one group placed in rounds make the block simultaneous at the end; uneven demand that is placed completely never is |
| `AudienceAttempt.TasksAreGood` | internal/scheduling/audience_solver.go:464-517 | A silent preflight makes sure that listed learners belong to the cohorts, that merged demand fits, and that doubles fit the periods |
| `AudienceAttempt.TagsAreFine` | internal/scheduling/validator.go:212-219 | The block tags of the lessons name blocks of their groups |
| `AudienceAgreement.AudienceAgreesWithValidator` | internal/scheduling/validator.go:38-230 | The validator can hold nothing against an audience attempt but unmet demand, coverage, blocks that were not exhausted, teachers without qualification, and double bookings where blocks cannot run together |
| `AudienceAgreement.CompleteIsValid` | internal/scheduling/validator.go:38-281 | An attempt that places everything, with its blocks done, nobody in two places at once and coverage met, is valid exactly when every scheduled assignment is for a qualified teacher |
| `AudienceAgreement.AuthorityIff` | internal/scheduling/validator.go:69-72 | Authority is violated exactly when a task that has a lesson is not for a qualified teacher |
| `AudienceAgreement.AuthorityByDemand` | internal/scheduling/audience_solver.go:452-588 | Authority is never violated where every scheduled assignment is for a qualified teacher, and an attempt that places everything violates it exactly where some assignment is not |
| `AudienceAgreement.NobodyOverworked` | internal/scheduling/validator.go:188-202 | No teacher is given more than the workload limit |
| `AudienceGap.RoundDoubleBooks` | internal/scheduling/audience_solver.go:234-249 | A problem that the preflight accepts, and a round whose members all pass the test, after which a teacher has two lessons at once: the members share the teacher, which nothing checks |
| `AudienceGap.RoundOverbooks` | internal/scheduling/audience_solver.go:234-249 | A problem that the preflight accepts, and a round of members with different people that all pass the test, after which a room for one has two lessons at once |
| `AudienceGap.UnevenBlock` | internal/scheduling/audience_solver.go:61-73 | A problem that the preflight accepts, with a block of groups that ask for one and two periods: one round, no second one, one more lesson; everything is placed and the block is not simultaneous |
| `AudienceGap.UnevenNeverInStep` | internal/scheduling/audience_solver.go:562-583 | Every attempt that places everything the block asks for leaves it out of step |
| `AudienceGap.UnqualifiedLesson` | internal/scheduling/audience_solver.go:452-588 | A problem that the preflight accepts and a lesson that passes the test, which then violates the authority of its teacher |
| `AudienceGap.WrongTag` | internal/scheduling/validator.go:204-219 | A lesson on which the check of the blocks faults |
| `Rotation.RotationIsLatin` | internal/scheduling/simulation.go:98-107 | In one period different cohorts have different teachers |
| `Rotation.LatinIff` | internal/scheduling/simulation.go:98-107 | The rotation never gives a teacher two cohorts at once exactly when there are no more cohorts than teachers |
| `Rotation.RotationAdvances` | internal/scheduling/simulation.go:95-103 | The cohorts begin in the order of the teachers, and from one turn to the next everybody goes on to the next teacher and subject; both periods of a double turn are the same lesson |
| `Rotation.EveryTeacherOnce` | internal/scheduling/simulation.go:95-103 | Without double lessons a cohort has every teacher exactly once in any stretch of as many periods as there are teachers |
| `Rotation.SlotsPair` | internal/scheduling/simulation.go:98-101 | With double lessons the slots of a lesson come in pairs that begin at an even period |
| `Rotation.AssignmentIdsDiffer` | internal/scheduling/simulation.go:107-115 | Different lessons have different assignments |
| `Simulation.PairAdjoins` | internal/scheduling/simulation.go:60-70 | Both halves of a double lesson are on the same side of the midday gap |
| `Simulation.PairsTouchIff` | internal/scheduling/simulation.go:59-70 | The week falls into pairs that double lessons can use exactly when four divides the number of periods a day |
| `Simulation.BuildAggregates` | internal/scheduling/simulation.go:92-120 | The aggregates are exactly the slots of the rotation, and exactly its cohort subjects are registered and its teachers recorded |
| `Simulation.BuildProblem` | internal/scheduling/simulation.go:55-153 | The generated problem has exactly the teachers, cohorts, periods, registrations and full coverage of the profile and the demand of the rotation; with limits a teacher is away exactly in every eleventh period in which nobody has it |
| `Simulation.DemandIs` | internal/scheduling/simulation.go:107-125 | An assignment has as many weekly periods as the rotation has periods for it, and with double lessons half as many doubles |
| `Simulation.PeriodIs` | internal/scheduling/simulation.go:56-67 | The periods of a day are taught and mandatory and follow each other, but for the gap in the middle of the day |
| `Simulation.EveryCohortIsCovered` | internal/scheduling/simulation.go:95-119 | Every cohort has exactly one lesson in every period |
| `Simulation.WitnessIsValid` | internal/scheduling/simulation.go:136-150 | The witness is valid for every size, with and without double lessons and limits |
| `Simulation.GenerateFeasibleSimulation` | internal/scheduling/simulation.go:52-154 | The generated timetable solves the generated problem, and the preflight accepts the problem |
| `Lifecycle.EveryRunIsFine` | internal/portalapi/handler.go:185-362 | Over all runs at most one version of a timetable is published, and the entries of published and superseded versions are the lessons of their latest solve, which the validator accepted |
| `Lifecycle.FrozenStep` | internal/portalapi/handler.go:1722-1729 | No step changes the entries of a published or superseded version, and it stays so except for a generation that reports late that it was infeasible |
| `Lifecycle.FrozenForGood` | internal/portalapi/handler.go:1722-1729 | A version stays published or superseded over all runs exactly when no generation of it is under way, and then its entries never change |
| `Lifecycle.FrozenUnlessLate` | internal/portalapi/handler.go:1722-1729 | Along any steps without a late infeasible report, published entries never change |
| `Lifecycle.PublishedStep` | internal/portalapi/handler.go:278-305 | A publication ends only with the publication of another version of the timetable |
| `Lifecycle.PublishedCanReopen` | internal/portalapi/generate.go:386-392 | A run in which an infeasible report turns a published version back into a draft |
| `Lifecycle.UnsolvedIsNotPublished` | migrations/000007_solver_projection_integrity.up.sql:63-75 | A version without solver runs is not published before it is solved again |
| `Lifecycle.EditsUnsolve` | migrations/000007_solver_projection_integrity.up.sql:63-75 | Every accepted change of entries leaves the version without solver runs |
| `Lifecycle.PersistedIsFine` | internal/portalapi/generate.go:386-494 | Storing a result keeps every run about the entries that the version has |
| `Lifecycle.PublishIsFine` | internal/portalapi/handler.go:278-305 | Publishing supersedes the predecessor and certifies the entries |
| `LifecycleLaws.OthersStay` | internal/portalapi/handler.go:26-362 | No step removes a version or changes its timetable or number; a step that does not concern a version changes nothing of it, except that a publication of its timetable supersedes it and an invalidation takes its solver runs |
| `LifecycleLaws.EditsAreLocal` | internal/portalapi/handler.go:1654-1720 | Changing or removing an entry leaves all other entries as they are, in their order |
| `LifecycleLaws.WithoutIs` | internal/portalapi/handler.go:1695-1720 | Exactly the entries with the identifier go, and each of the others stays as often as it was there |
| `LifecycleLaws.ReplacedIs` | internal/portalapi/handler.go:1654-1693 | Exactly the entries with the identifier change, and only their lesson |
| `LifecycleLaws.AddThenRemove` | internal/portalapi/handler.go:1624-1720 | Adding an entry and removing it gives the same entries |
| `LifecycleLaws.ValidatedIff` | internal/portalapi/handler.go:26-80 | A version becomes validated exactly by its validation, when it is editable, its latest run succeeded, the data is current and no conflict is detected; otherwise validation makes it a draft |
| `LifecycleLaws.PublishedIff` | internal/portalapi/handler.go:185-307 | A version becomes published exactly by its publication under the same conditions, and superseded exactly when another version of its timetable becomes published |
| `LifecycleLaws.PublishedInTwoSteps` | internal/portalapi/handler.go:26-307 | Validating and publishing at once succeeds exactly for editable versions whose latest run did |
| `LifecycleLaws.InvalidatedIff` | internal/portalapi/delivery_groups.go:415-430 | The solver runs of a version go exactly when it is editable and its timetable is among those named, and nothing else changes |
| `LifecycleLaws.NewVersion` | internal/portalapi/handler.go:1479-1533 | Only a creation adds a version: a draft without runs, with a number above all others of its timetable |
| `LifecycleLaws.AlwaysNumbered` | internal/portalapi/handler.go:1494-1498 | Over all runs the versions of a timetable are numbered from one, without gap and without repetition |
| `LifecycleLaws.DerivedCopies` | internal/portalapi/handler.go:1514-1523 | A derived version has, for each entry of the latest version, one with the same teacher, subject, resource and periods, and with nothing that ties it to an assignment |
| `Store.VersionStore.CreateVersion` | internal/portalapi/handler.go:1479-1533 | A draft with the next number and the entries of the latest version, without solver runs; the copies have lost their groups, blocks, learners, assignments and lists of cohorts |
| `Store.VersionStore.CreateEntry` | internal/portalapi/handler.go:1624-1652 | An accepted entry is added to an editable version, which loses its solver runs and its validation |
| `Store.VersionStore.UpdateEntry` | internal/portalapi/handler.go:1654-1693 | An accepted change of an existing entry, with the same effect |
| `Store.VersionStore.DeleteEntry` | internal/portalapi/handler.go:1695-1720 | An existing entry goes, with the same effect |
| `Store.VersionStore.ValidateVersion` | internal/portalapi/handler.go:26-80 | An editable version with a solver run becomes validated exactly when its latest run succeeded without conflicts, and a draft otherwise |
| `Store.VersionStore.PublishVersion` | internal/portalapi/handler.go:185-307 | Published exactly when validated on a successful latest run without detected conflicts; the predecessor is superseded |
| `Store.VersionStore.BeginGeneration` | internal/portalapi/generate.go:114-132 | A generation begins only for a version that is neither published nor superseded |
| `Store.VersionStore.PersistSolveResult` | internal/portalapi/generate.go:378-495 | Row by row with the trigger: the entries become the lessons, earlier runs go unless there was no row, and an infeasible result keeps the entries |
| `Store.VersionStore.FinishGeneration` | internal/portalapi/generate.go:77-82 | The solver's result is stored, and what the solver promises makes the step an honest one, so publication safety rests on the solver |
| `Store.VersionStore.InvalidateDrafts` | internal/portalapi/delivery_groups.go:415-430 | The solver runs of the editable versions of the timetables go |
| `Store.VersionStore.VersionEditable` | internal/portalapi/handler.go:1722-1729 | Published, superseded and archived versions are not editable |
| `Calendar.BuildCalendarVersion` | internal/calendar/service.go:72-111 | Input is accepted exactly when the breaks are readable, inside the day and apart, each known day is named once and a lesson fits between the breaks; it then gives a week in which every day is tiled as planned, with at least one lesson; no input is refused for a shortened teaching period, and every refusal has its reason |
| `CalendarMeaning.AcceptableIff` | internal/calendar/service.go:72-111 | Input is accepted exactly when its lessons and its day have a length, its breaks lie inside the day and no two overlap, some day is known and none is named twice, and somewhere in the day a lesson meets no break |
| `CalendarMeaning.OrderIsFree` | internal/calendar/service.go:220-243 | The order in which the breaks are given makes no difference |
| `Calendar.LessonIffFits` | internal/calendar/service.go:149-208 | A planned day has a lesson exactly when some stretch between breaks is as long as one |
| `Calendar.ValidateBreakStructure` | internal/calendar/service.go:220-243 | Breaks are accepted exactly when they are readable, inside the day and do not overlap, and a refusal names something that is wrong with them |
| `Calendar.GenerateDay` | internal/calendar/service.go:149-190 | The slots of a day cover it without gap or overlap, number from zero, show every break, and are otherwise full lessons or shorter transitions before a break or the end |
| `Calendar.AppendTeachingSegment` | internal/calendar/service.go:195-208 | Full lessons, and a transition for the rest, up to the end of the segment |
| `Calendar.GenerateTimeSlots` | internal/calendar/service.go:146-193 | Every learning day has its plan, and there are no other slots |
| `Calendar.SlotsFitIn` | internal/calendar/service.go:157-173 | A day has no more slots than minutes, so slot numbers do not wrap around |
| `Calendar.LessonsAreFull` | internal/calendar/service.go:113-122 | Every generated lesson has full length |
| `Calendar.BreaksAppear` | internal/calendar/service.go:175-184 | Every break appears on every day with its own bounds and kind |
| `Calendar.ConsecutiveLessonsTouch` | internal/portalapi/generate.go:410-443 | Lessons with consecutive numbers touch, so a double lesson spans exactly two periods |
| `Calendar.ValidateGeneratedLessonSlots` | internal/calendar/service.go:113-128 | A shortened lesson is reported exactly when there is one, a week without lessons exactly when there is none, and nothing else is refused |
| `Calendar.HasDuplicateDays` | internal/calendar/service.go:275-285 | True exactly when a day occurs twice |
| `Outbox.EveryRunIsFine` | internal/outbox/worker.go:115-174 | Over all interleavings no event is held by two workers, and attempts never exceed the limit plus the replays |
| `Outbox.DeliveredForGood` | internal/outbox/worker.go:220-228 | A delivered event is never touched again, over whole runs |
| `Outbox.StatusOverRuns` | internal/outbox/worker.go:115-258 | Over whole runs: an event is delivered exactly when a claim held on it was settled as accepted, dead exactly when since its last replay one was rejected or failed at the limit, in delivery exactly when no answer has come since it was taken; and its attempts are the times it was taken |
| `Outbox.ReplayRevives` | internal/outbox/worker.go:285-297 | A replay makes exactly the dead events pending again |
| `Outbox.DelaysAreSafeIff` | internal/outbox/worker.go:246-249 | In 64-bit arithmetic all delays lie between half a minute and an hour exactly for at most thirty attempts |
| `Outbox.DelaysGrow` | internal/outbox/worker.go:246-249 | Within that limit a later retry never waits less |
| `Outbox.DelayIsBackoff` | internal/outbox/worker.go:246-249 | Up to 29 attempts the delay is the doubling back-off, without overflow |
| `Outbox.DelayOverflows` | internal/outbox/worker.go:246-249 | After thirty attempts the computed delay is negative |
| `Outbox.FailedEventsRest` | internal/outbox/worker.go:240-258 | A failed event is given up at the limit, or rests for half a minute to an hour before anybody can take it |
| `Outbox.Table.TakeBatch` | internal/outbox/worker.go:115-174 | Due events that nobody has locked, at most a batch of them, become held by the worker with one more attempt, and a batch that is not full has all of them |
| `Outbox.Table.Deliver` | internal/outbox/worker.go:176-238 | The outcome of a held event: delivered, buried, retried or lost |
| `Outbox.Table.Retry` | internal/outbox/worker.go:240-258 | The attempts are counted on the worker's own copy of the event |
| `Outbox.Table.ReplayDead` | internal/outbox/worker.go:285-297 | Dead events become pending again and keep their attempts |

## Left out

- Engine.PinExisting: existing sessions are assumed to be single periods or adjoining pairs (`ExistingShaped`), because `canPlace` does not check contiguity.
- Attempt.SolveOrdinary: paired demand is only claimed complete when every teacher and cohort has at most as many pairs of demand as there are adjacent pairs; otherwise the colouring phase is skipped and the fallback may or may not succeed.
- Attempt.SolveOrdinary: completeness is claimed where nobody is unavailable and no resource is needed; with restrictions the attempt keeps its invariants and saturates, but greedy matching is not complete.
- Necessity.SolvableIsFeasible: without mandatory periods or cohorts that are always available it fails under full coverage; `Necessity.FeasibleIff` has the exact condition. Learner lists do not occur here, as problems with learners go to the audience preflight.
- Simulation.GenerateFeasibleSimulation: sizes with more cohorts than teachers, or with double lessons and a day that four does not divide, are excluded; `Rotation.LatinIff` and `Simulation.PairsTouchIff` say that the rotation then clashes and the pairs are broken.
- AudienceAttempt.SolveAudience: that nobody is in two places at once is claimed for blocks whose members can run together, with enough capacity for the resources they share (`BlocksCanRun`); otherwise it can fail. A block names no group twice, as its table's key demands (`GroupsNamed`). Blocks that share a group with another block are in lockstep when the blocks are left, and no more is claimed of them.
- AudiencePreflight.AnalyzeAudience: messages, suggested actions and capacity figures of issues are not modelled, nor which entity an issue names.
- Validator.ValidateSchedule: how many failures there are is stated, and which invariants they are about, but not the entity and the period that each of them names. The number of soft violations is arbitrary, as fairness (repeated subjects, idle gaps, variances) is not modelled.
- Solver.Solve: metrics, seeds and durations are not modelled; the deadline is an arbitrary answer of the clock.
- Lifecycle.EveryRunIsFine: a handler is one atomic step although it checks and acts in separate statements; a generation is two steps. Workspace scope, academic snapshots, term dates and detected conflicts are parameters. The limit of one running generation per version is left out, which allows more runs.
- Calendar.BuildCalendarVersion: times are whole minutes of one day; text that is not a time is one value.
- Outbox.EveryRunIsFine: an event whose worker dies after the claim stays in delivery, as in the program, so no progress is claimed.
- Trimming of blanks in identifiers: identifiers are compared as they are.
- The recursive search closures of the colouring, the matching and the preflight are one method (`Matching.Matcher.Visit`); maps of unavailability are sets, and the numbers of doubles in assignments and groups are not negative.
- Lookup maps for assignments and periods are functions of the lists, built once instead of at every call.
- Stable entry identifiers, diffs, the published event's payload and the learner occupancy rows written with entries.
- The portal, HTTP, SQL text, signatures, provisioning, availability and examination tables: plumbing, or members that would only be easy.

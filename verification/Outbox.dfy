/** The outbox: claims, outcomes and replays of events as atomic steps of any number of workers, and the retry delay. */
module Outbox {
  import opened Model

  // ----- the retry delay

  /** A 64-bit signed integer. */
  function Wrap64(n: int): int {
    (n + 0x8000_0000_0000_0000) % 0x1_0000_0000_0000_0000 - 0x8000_0000_0000_0000
  }

  function Pow2(k: nat): nat {
    if k == 0 then 1 else 2 * Pow2(k - 1)
  }

  /** `1 << k` in 64 bits. */
  function Shift(k: nat): int {
    if k < 64 then Wrap64(Pow2(k)) else 0
  }

  const SECOND: int := 1_000_000_000
  const HOUR: int := 3600

  /** The delay in nanoseconds after the given number of attempts, with the arithmetic of the machine. */
  function Delay(attempts: int): int {
    var shift: nat := if attempts >= 1 then attempts - 1 else 0;
    var delay := Wrap64(Wrap64(30 * Shift(shift)) * SECOND);
    if delay > HOUR * SECOND then HOUR * SECOND else delay
  }

  /** The delay that is meant: it doubles, up to an hour. */
  function Backoff(attempts: int): int {
    var shift: nat := if attempts >= 1 then attempts - 1 else 0;
    if 30 * Pow2(shift) > HOUR then HOUR else 30 * Pow2(shift)
  }

  lemma {:induction false} Pow2Grows(j: nat, k: nat)
    requires j <= k
    ensures 1 <= Pow2(j) <= Pow2(k)
    decreases k
  {
    if k > 0 {
      if j < k {
        Pow2Grows(j, k - 1);
      } else {
        Pow2Grows(j - 1, k - 1);
      }
    }
  }

  lemma BigPowers()
    ensures Pow2(28) == 268_435_456 && Pow2(29) == 536_870_912
  {
    assert Pow2(2) == 4;
    assert Pow2(4) == 16;
    assert Pow2(6) == 64;
    assert Pow2(8) == 256;
    assert Pow2(10) == 1024;
    assert Pow2(12) == 4096;
    assert Pow2(14) == 16_384;
    assert Pow2(16) == 65_536;
    assert Pow2(18) == 262_144;
    assert Pow2(20) == 1_048_576;
    assert Pow2(22) == 4_194_304;
    assert Pow2(24) == 16_777_216;
    assert Pow2(26) == 67_108_864;
    assert Pow2(28) == 268_435_456;
  }

  lemma WrapKeeps(n: int)
    requires -0x8000_0000_0000_0000 <= n < 0x8000_0000_0000_0000
    ensures Wrap64(n) == n
  {
  }

  /** Up to 29 attempts nothing overflows. */
  lemma DelayIsBackoff(attempts: int)
    requires 1 <= attempts <= 29
    ensures Delay(attempts) == Backoff(attempts) * SECOND
  {
    Pow2Grows(attempts - 1, 28);
    BigPowers();
    var p := Pow2(attempts - 1);
    WrapKeeps(p);
    WrapKeeps(30 * p);
    WrapKeeps(30 * p * SECOND);
  }

  lemma BackoffIsMonotonic(a: int, b: int)
    requires 1 <= a <= b
    ensures 30 <= Backoff(a) <= Backoff(b) <= HOUR
  {
    Pow2Grows(0, a - 1);
    Pow2Grows(a - 1, b - 1);
  }

  /** With thirty attempts the delay overflows, and the event is due at once. */
  lemma DelayOverflows()
    ensures Delay(30) < 0
  {
    BigPowers();
    WrapKeeps(536_870_912);
    WrapKeeps(30 * 536_870_912);
  }

  /** A worker that gives up after `max` attempts computes the delay after fewer attempts than that. */
  ghost predicate SafeDelays(max: int) {
    forall a | 1 <= a < max :: 30 * SECOND <= Delay(a) <= HOUR * SECOND
  }

  /** Every delay is between half a minute and an hour exactly for at most thirty attempts. */
  lemma DelaysAreSafeIff(max: int)
    ensures SafeDelays(max) <==> max <= 30
  {
    if max <= 30 {
      forall a | 1 <= a < max
        ensures 30 * SECOND <= Delay(a) <= HOUR * SECOND
      {
        DelayIsBackoff(a);
        BackoffIsMonotonic(a, a);
      }
    } else {
      DelayOverflows();
    }
  }

  /** Within that limit a later retry never waits less. */
  lemma DelaysGrow(a: int, b: int)
    requires 1 <= a <= b <= 29
    ensures Delay(a) <= Delay(b)
  {
    DelayIsBackoff(a);
    DelayIsBackoff(b);
    BackoffIsMonotonic(a, b);
  }

  // ----- events

  datatype Status = Pending | Delivering | Delivered | DeadLetter

  /** `replays` counts how often the event was replayed; the table does not store it. */
  datatype Event = Event(status: Status, attempts: nat, nextRetry: int, replays: nat)

  /** What a worker holds after a claim: the event as it was read, before the claim counted the attempt. */
  datatype Claim = Claim(worker: Id, event: Id, attempts: nat)

  datatype State = State(events: map<Id, Event>, claims: set<Claim>)

  datatype Outcome = Accepted | Rejected | Failed | Lost

  /** The atomic steps. `now` is the time in nanoseconds. */
  datatype Step =
    | Enqueue(event: Id)
    | Take(worker: Id, ids: set<Id>, now: int)
    | Settle(held: Claim, outcome: Outcome, now: int)
    | Replay(ids: set<Id>, now: int)

  predicate Due(e: Event, now: int) {
    e.status == Pending && e.nextRetry <= now
  }

  function Claimed(e: Event): Event {
    e.(status := Delivering, attempts := e.attempts + 1)
  }

  function Buried(e: Event): Event {
    e.(status := DeadLetter, nextRetry := 0)
  }

  /** `retry`, with the attempts that the worker read when it claimed. */
  function Retried(e: Event, read: nat, max: int, now: int): Event {
    if read + 1 >= max then Buried(e) else e.(status := Pending, nextRetry := now + Delay(read + 1))
  }

  function Settled(e: Event, held: Claim, outcome: Outcome, max: int, now: int): Event {
    match outcome
    case Accepted => e.(status := Delivered, nextRetry := 0)
    case Rejected => Buried(e)
    case Failed => Retried(e, held.attempts, max, now)
    case Lost => e
  }

  function Replayed(e: Event, now: int): Event {
    e.(status := Pending, nextRetry := now, replays := e.replays + 1)
  }

  function Next(s: State, step: Step, max: int): State {
    match step
    case Enqueue(id) => if id in s.events then s else s.(events := s.events[id := Event(Pending, 0, 0, 0)])
    case Take(worker, ids, now) =>
      State(map id | id in s.events :: if id in ids && Due(s.events[id], now) then Claimed(s.events[id]) else s.events[id],
            s.claims + set id | id in s.events && id in ids && Due(s.events[id], now) :: Claim(worker, id, s.events[id].attempts))
    case Settle(held, outcome, now) =>
      if held !in s.claims || held.event !in s.events then s
      else State(s.events[held.event := Settled(s.events[held.event], held, outcome, max, now)], s.claims - {held})
    case Replay(ids, now) =>
      s.(events := map id | id in s.events :: if id in ids && s.events[id].status == DeadLetter then Replayed(s.events[id], now) else s.events[id])
  }

  const EMPTY: State := State(map[], {})

  function After(steps: seq<Step>, max: int): State {
    if steps == [] then EMPTY else Next(After(steps[..|steps| - 1], max), steps[|steps| - 1], max)
  }

  // ----- what every step keeps

  /** An event is held by one worker at most, while it is being delivered, and the holder knows its attempts but for the one
      that the claim counted. */
  ghost predicate Held(s: State) {
    && (forall c | c in s.claims :: c.event in s.events && s.events[c.event].status == Delivering && s.events[c.event].attempts == c.attempts + 1)
    && forall c, d | c in s.claims && d in s.claims && c.event == d.event :: c == d
  }

  predicate Bounded(e: Event, max: int) {
    if e.status == Pending then e.attempts < max + e.replays else e.attempts <= max + e.replays
  }

  ghost predicate Fine(s: State, max: int) {
    Held(s) && forall id | id in s.events :: Bounded(s.events[id], max)
  }

  lemma TakeIsFine(s: State, worker: Id, ids: set<Id>, now: int, max: int)
    requires Fine(s, max)
    ensures Fine(Next(s, Take(worker, ids, now), max), max)
  {
    var after := Next(s, Take(worker, ids, now), max);
    forall c | c in after.claims
      ensures c.event in after.events && after.events[c.event].status == Delivering && after.events[c.event].attempts == c.attempts + 1
    {
      if c in s.claims {
        assert s.events[c.event].status == Delivering;
      }
    }
  }

  lemma SettleIsFine(s: State, held: Claim, outcome: Outcome, now: int, max: int)
    requires Fine(s, max)
    ensures Fine(Next(s, Settle(held, outcome, now), max), max)
  {
    hide Delay;
  }

  lemma StepIsFine(s: State, step: Step, max: int)
    requires Fine(s, max) && max >= 1
    ensures Fine(Next(s, step, max), max)
  {
    match step
    case Enqueue(id) =>
    case Take(worker, ids, now) => TakeIsFine(s, worker, ids, now, max);
    case Settle(held, outcome, now) => SettleIsFine(s, held, outcome, now, max);
    case Replay(ids, now) =>
  }

  /** Over all interleavings: no event is held twice, and no event is attempted more often than the limit and its replays allow. */
  lemma {:induction false} EveryRunIsFine(steps: seq<Step>, max: int)
    requires max >= 1
    ensures Fine(After(steps, max), max)
    ensures forall id | id in After(steps, max).events :: After(steps, max).events[id].attempts <= max + After(steps, max).events[id].replays
  {
    if steps != [] {
      EveryRunIsFine(steps[..|steps| - 1], max);
      StepIsFine(After(steps[..|steps| - 1], max), steps[|steps| - 1], max);
    }
  }

  /** A delivered event is never touched again. */
  lemma DeliveredIsFinal(s: State, step: Step, id: Id, max: int)
    requires Fine(s, max) && id in s.events && s.events[id].status == Delivered
    ensures id in Next(s, step, max).events && Next(s, step, max).events[id] == s.events[id]
  {
    hide Delay;
  }

  lemma {:induction false} DeliveredForGood(steps: seq<Step>, more: seq<Step>, id: Id, max: int)
    requires max >= 1 && id in After(steps, max).events && After(steps, max).events[id].status == Delivered
    ensures id in After(steps + more, max).events && After(steps + more, max).events[id] == After(steps, max).events[id]
  {
    if more == [] {
      assert steps + more == steps;
    } else {
      var rest, last := more[..|more| - 1], more[|more| - 1];
      assert (steps + more)[..|steps + more| - 1] == steps + rest;
      DeliveredForGood(steps, rest, id, max);
      EveryRunIsFine(steps + rest, max);
      DeliveredIsFinal(After(steps + rest, max), last, id, max);
    }
  }

  /** After a failed attempt the event is either given up, or it rests for half a minute to an hour before anybody can take it. */
  lemma FailedEventsRest(s: State, held: Claim, now: int, max: int, worker: Id, ids: set<Id>, later: int)
    requires Fine(s, max) && held in s.claims && max <= 30
    ensures var e := Next(s, Settle(held, Failed, now), max).events[held.event];
            && (e.status == DeadLetter <==> s.events[held.event].attempts >= max)
            && (e.status == Pending ==> now + 30 * SECOND <= e.nextRetry <= now + HOUR * SECOND)
            && (later < now + 30 * SECOND && e.status == Pending ==>
                  Next(Next(s, Settle(held, Failed, now), max), Take(worker, ids, later), max).events[held.event] == e)
  {
    if held.attempts + 1 < max {
      DelayIsBackoff(held.attempts + 1);
      BackoffIsMonotonic(held.attempts + 1, held.attempts + 1);
    }
    hide Delay;
  }

  // ----- what a status says about the run

  /** Step `k` settles a claim that is held on the event, with this outcome. */
  ghost predicate Answers(steps: seq<Step>, k: nat, id: Id, outcome: Outcome, max: int)
    requires k < |steps|
  {
    steps[k].Settle? && steps[k].outcome == outcome && steps[k].held.event == id && steps[k].held in After(steps[..k], max).claims
  }

  /** Step `k` settles a claim that is held on the event, and the outcome was not lost. */
  ghost predicate Ends(steps: seq<Step>, k: nat, id: Id, max: int)
    requires k < |steps|
  {
    steps[k].Settle? && steps[k].outcome != Lost && steps[k].held.event == id && steps[k].held in After(steps[..k], max).claims
  }

  /** Step `k` gives the event up: the request was rejected, or it failed and all attempts are used up. */
  ghost predicate GivesUp(steps: seq<Step>, k: nat, id: Id, max: int)
    requires k < |steps|
  {
    || Answers(steps, k, id, Rejected, max)
    || (Answers(steps, k, id, Failed, max) && id in After(steps[..k], max).events && After(steps[..k], max).events[id].attempts >= max)
  }

  ghost predicate Replays(steps: seq<Step>, k: nat, id: Id)
    requires k < |steps|
  {
    steps[k].Replay? && id in steps[k].ids
  }

  /** Step `k` takes the event: it is due, and among those that the worker selects. */
  ghost predicate Takes(steps: seq<Step>, k: nat, id: Id, max: int)
    requires k < |steps|
  {
    && steps[k].Take? && id in steps[k].ids && id in After(steps[..k], max).events
    && After(steps[..k], max).events[id].status == Pending && After(steps[..k], max).events[id].nextRetry <= steps[k].now
  }

  /** The event was delivered: some request for it was accepted. */
  ghost predicate WasAccepted(steps: seq<Step>, id: Id, max: int) {
    exists k: nat :: k < |steps| && Answers(steps, k, id, Accepted, max)
  }

  /** The event was given up, and not replayed since. */
  ghost predicate WasGivenUp(steps: seq<Step>, id: Id, max: int) {
    exists k: nat :: k < |steps| && GivesUp(steps, k, id, max) && forall j: nat | k < j < |steps| :: !Replays(steps, j, id)
  }

  /** The event was taken, and no answer has come since: none is awaited any more, if the outcome was lost. */
  ghost predicate WasTaken(steps: seq<Step>, id: Id, max: int) {
    exists k: nat :: k < |steps| && Takes(steps, k, id, max) && forall j: nat | k < j < |steps| :: !Ends(steps, j, id, max)
  }

  lemma Earlier(steps: seq<Step>, k: nat)
    requires k < |steps|
    ensures steps[..|steps| - 1][..k] == steps[..k]
  {
  }

  /** What is said of the steps before the last one. */
  lemma EarlierSteps(steps: seq<Step>, id: Id, max: int)
    requires steps != []
    ensures var rest, n := steps[..|steps| - 1], |steps| - 1;
            && (forall k: nat, outcome | k < n :: Answers(steps, k, id, outcome, max) <==> Answers(rest, k, id, outcome, max))
            && (forall k: nat | k < n :: Ends(steps, k, id, max) <==> Ends(rest, k, id, max))
            && (forall k: nat | k < n :: GivesUp(steps, k, id, max) <==> GivesUp(rest, k, id, max))
            && (forall k: nat | k < n :: Replays(steps, k, id) <==> Replays(rest, k, id))
            && (forall k: nat | k < n :: Takes(steps, k, id, max) <==> Takes(rest, k, id, max))
  {
    hide After;
    var rest, n := steps[..|steps| - 1], |steps| - 1;
    forall k: nat | k < n
      ensures steps[..k] == rest[..k] && steps[k] == rest[k]
    {
      Earlier(steps, k);
    }
  }

  lemma LastStep(steps: seq<Step>, id: Id, max: int)
    requires steps != []
    ensures var rest, n := steps[..|steps| - 1], |steps| - 1;
            && (WasAccepted(steps, id, max) <==> WasAccepted(rest, id, max) || Answers(steps, n, id, Accepted, max))
            && (WasGivenUp(steps, id, max) <==> (WasGivenUp(rest, id, max) && !Replays(steps, n, id)) || GivesUp(steps, n, id, max))
            && (WasTaken(steps, id, max) <==>
                  (WasTaken(rest, id, max) && !Ends(steps, n, id, max)) || Takes(steps, n, id, max))
  {
    var rest, n := steps[..|steps| - 1], |steps| - 1;
    EarlierSteps(steps, id, max);
    hide Answers, Ends, GivesUp, Replays, Takes;
    AcceptedLast(steps, id, max);
    GivenUpLast(steps, id, max);
    TakenLast(steps, id, max);
  }

  lemma AcceptedLast(steps: seq<Step>, id: Id, max: int)
    requires steps != []
    ensures WasAccepted(steps, id, max) <==> WasAccepted(steps[..|steps| - 1], id, max) || Answers(steps, |steps| - 1, id, Accepted, max)
  {
    EarlierSteps(steps, id, max);
    hide Answers, Ends, GivesUp, Replays, Takes;
  }

  lemma GivenUpLast(steps: seq<Step>, id: Id, max: int)
    requires steps != []
    ensures WasGivenUp(steps, id, max) <==>
              (WasGivenUp(steps[..|steps| - 1], id, max) && !Replays(steps, |steps| - 1, id)) || GivesUp(steps, |steps| - 1, id, max)
  {
    EarlierSteps(steps, id, max);
    hide Answers, Ends, GivesUp, Replays, Takes;
    var rest, n := steps[..|steps| - 1], |steps| - 1;
    if WasGivenUp(steps, id, max) && !GivesUp(steps, n, id, max) {
      var k: nat :| k < |steps| && GivesUp(steps, k, id, max) && forall j: nat | k < j < |steps| :: !Replays(steps, j, id);
      assert GivesUp(rest, k, id, max) && forall j: nat | k < j < |rest| :: !Replays(rest, j, id);
    }
    if WasGivenUp(rest, id, max) && !Replays(steps, n, id) {
      var k: nat :| k < |rest| && GivesUp(rest, k, id, max) && forall j: nat | k < j < |rest| :: !Replays(rest, j, id);
      assert GivesUp(steps, k, id, max) && forall j: nat | k < j < |steps| :: !Replays(steps, j, id);
    }
  }

  lemma TakenLast(steps: seq<Step>, id: Id, max: int)
    requires steps != []
    ensures WasTaken(steps, id, max) <==>
              || (WasTaken(steps[..|steps| - 1], id, max) && !Ends(steps, |steps| - 1, id, max))
              || Takes(steps, |steps| - 1, id, max)
  {
    EarlierSteps(steps, id, max);
    hide Answers, Ends, GivesUp, Replays, Takes;
    var rest, n := steps[..|steps| - 1], |steps| - 1;
    if WasTaken(steps, id, max) && !Takes(steps, n, id, max) {
      var k: nat :| k < |steps| && Takes(steps, k, id, max)
                    && forall j: nat | k < j < |steps| :: !Ends(steps, j, id, max);
      assert Takes(rest, k, id, max)
             && forall j: nat | k < j < |rest| :: !Ends(rest, j, id, max);
    }
    if WasTaken(rest, id, max) && !Ends(steps, n, id, max) {
      var k: nat :| k < |rest| && Takes(rest, k, id, max)
                    && forall j: nat | k < j < |rest| :: !Ends(rest, j, id, max);
      assert Takes(steps, k, id, max)
             && forall j: nat | k < j < |steps| :: !Ends(steps, j, id, max);
    }
  }

  /** How often the event was taken. */
  ghost function TimesTaken(steps: seq<Step>, id: Id, max: int): nat {
    if steps == [] then 0
    else TimesTaken(steps[..|steps| - 1], id, max) + if Takes(steps, |steps| - 1, id, max) then 1 else 0
  }

  ghost predicate StatusMeans(s: State, id: Id, accepted: bool, givenUp: bool, taken: bool, times: nat) {
    && ((id in s.events && s.events[id].status == Delivered) <==> accepted)
    && ((id in s.events && s.events[id].status == DeadLetter) <==> givenUp)
    && ((id in s.events && s.events[id].status == Delivering) <==> taken)
    && (if id in s.events then s.events[id].attempts == times else times == 0)
  }

  /** One step, and what it does to the event. */
  lemma StatusStep(s: State, step: Step, id: Id, max: int, accepted: bool, givenUp: bool, taken: bool, times: nat)
    requires Fine(s, max) && StatusMeans(s, id, accepted, givenUp, taken, times)
    ensures var settles := step.Settle? && step.held.event == id && step.held in s.claims;
            var takes := step.Take? && id in step.ids && id in s.events && s.events[id].status == Pending && s.events[id].nextRetry <= step.now;
            StatusMeans(Next(s, step, max), id,
                        accepted || (settles && step.outcome == Accepted),
                        || (givenUp && !(step.Replay? && id in step.ids))
                        || (settles && (step.outcome == Rejected || (step.outcome == Failed && id in s.events && s.events[id].attempts >= max))),
                        (taken && !(settles && step.outcome != Lost)) || takes,
                        times + if takes then 1 else 0)
  {
    hide Delay;
  }

  /** Over whole runs: an event is delivered exactly when a request for it was accepted; it is a dead letter exactly when, since its last
      replay, a request was rejected or failed at the limit; it is in delivery exactly when no answer has come since it was taken; and its
      attempts count how often it was taken. */
  lemma {:induction false} StatusOverRuns(steps: seq<Step>, id: Id, max: int)
    requires max >= 1
    ensures var s := After(steps, max);
            && (id in s.events && s.events[id].status == Delivered <==> WasAccepted(steps, id, max))
            && (id in s.events && s.events[id].status == DeadLetter <==> WasGivenUp(steps, id, max))
            && (id in s.events && s.events[id].status == Delivering <==> WasTaken(steps, id, max))
            && (if id in s.events then s.events[id].attempts == TimesTaken(steps, id, max) else TimesTaken(steps, id, max) == 0)
  {
    StatusOfRun(steps, id, max);
    hide After, WasAccepted, WasGivenUp, WasTaken, TimesTaken;
  }

  lemma {:induction false} StatusOfRun(steps: seq<Step>, id: Id, max: int)
    requires max >= 1
    ensures StatusMeans(After(steps, max), id, WasAccepted(steps, id, max), WasGivenUp(steps, id, max), WasTaken(steps, id, max), TimesTaken(steps, id, max))
  {
    if steps != [] {
      var rest, n := steps[..|steps| - 1], |steps| - 1;
      StatusOfRun(rest, id, max);
      EveryRunIsFine(rest, max);
      LastStep(steps, id, max);
      var s := After(rest, max);
      assert After(steps, max) == Next(s, steps[n], max) && steps[..n] == rest;
      assert TimesTaken(steps, id, max) == TimesTaken(rest, id, max) + if Takes(steps, n, id, max) then 1 else 0;
      hide After, WasAccepted, WasGivenUp, WasTaken, TimesTaken, Next, Fine, StatusMeans;
      StatusStep(s, steps[n], id, max, WasAccepted(rest, id, max), WasGivenUp(rest, id, max), WasTaken(rest, id, max), TimesTaken(rest, id, max));
    }
  }

  /** Exactly the enqueued events exist. */
  lemma {:induction false} EnqueuedExist(steps: seq<Step>, id: Id, max: int)
    ensures id in After(steps, max).events <==> Enqueue(id) in steps
  {
    if steps != [] {
      assert steps == steps[..|steps| - 1] + [steps[|steps| - 1]];
      EnqueuedExist(steps[..|steps| - 1], id, max);
    }
  }

  /** A replayed dead letter can be taken at once, and keeps its attempts; every other event stays as it is. */
  lemma ReplayRevives(s: State, ids: set<Id>, now: int, id: Id, max: int)
    requires id in s.events
    ensures var e := Next(s, Replay(ids, now), max).events[id];
            if id in ids && s.events[id].status == DeadLetter
            then e.status == Pending && e.nextRetry <= now && e.attempts == s.events[id].attempts
            else e == s.events[id]
  {
  }

  // ----- the worker's statements

  function Marked(events: map<Id, Event>, ids: seq<Id>): map<Id, Event> {
    map id | id in events :: if id in ids then Claimed(events[id]) else events[id]
  }

  function ClaimsOf(events: map<Id, Event>, worker: Id, ids: seq<Id>): set<Claim> {
    set id | id in events && id in ids :: Claim(worker, id, events[id].attempts)
  }

  lemma MarkNone(events: map<Id, Event>, held: set<Claim>, worker: Id)
    ensures Marked(events, []) == events && held + ClaimsOf(events, worker, []) == held
  {
  }

  lemma MarkOne(events: map<Id, Event>, worker: Id, ids: seq<Id>, j: nat)
    requires Distinct(ids) && j < |ids| && ids[j] in events
    ensures ids[j] in Marked(events, ids[..j]) && Marked(events, ids[..j])[ids[j]] == events[ids[j]]
    ensures Marked(events, ids[..j + 1]) == Marked(events, ids[..j])[ids[j] := Claimed(events[ids[j]])]
    ensures ClaimsOf(events, worker, ids[..j + 1]) == ClaimsOf(events, worker, ids[..j]) + {Claim(worker, ids[j], events[ids[j]].attempts)}
  {
    assert ids[..j + 1] == ids[..j] + [ids[j]];
    assert ids[j] !in ids[..j];
  }

  lemma MarkedIsTaken(s: State, worker: Id, ids: seq<Id>, now: int, max: int)
    requires forall id | id in ids :: id in s.events && Due(s.events[id], now)
    ensures Next(s, Take(worker, (set id | id in ids), now), max) == State(Marked(s.events, ids), s.claims + ClaimsOf(s.events, worker, ids))
  {
    var taken := set id | id in ids;
    var t := Next(s, Take(worker, taken, now), max);
    assert t.events == Marked(s.events, ids);
    assert t.claims == s.claims + ClaimsOf(s.events, worker, ids);
  }

  class Table {
    var events: map<Id, Event>
    var claims: set<Claim>
    const max: int

    ghost function Current(): State
      reads this
    {
      State(events, claims)
    }

    constructor (max: int)
      ensures Current() == EMPTY && this.max == if max <= 0 then 8 else max
    {
      events, claims := map[], {};
      this.max := if max <= 0 then 8 else max;
    }

    /** The due events that no other transaction has locked, up to the size of a batch. */
    method SelectDue(batch: nat, now: int, locked: set<Id>) returns (ids: seq<Id>)
      ensures |ids| <= batch && Distinct(ids) && forall id | id in ids :: id in events && Due(events[id], now) && id !in locked
      ensures |ids| < batch ==> forall id | id in events && Due(events[id], now) && id !in locked :: id in ids
    {
      var order := KeysInSomeOrder(events);
      ids := [];
      var k := 0;
      while k < |order| && |ids| < batch
        invariant k <= |order| && |ids| <= batch && Distinct(ids)
        invariant forall id | id in ids :: id in order[..k] && Due(events[id], now) && id !in locked
        invariant |ids| < batch ==> forall id | id in order[..k] && Due(events[id], now) && id !in locked :: id in ids
      {
        if Due(events[order[k]], now) && order[k] !in locked {
          assert order[k] !in order[..k];
          ids := ids + [order[k]];
        }
        k := k + 1;
      }
    }

    /** `claim`: the selected events are read, and then marked one by one. */
    method TakeBatch(worker: Id, batch: nat, now: int, locked: set<Id>) returns (ids: seq<Id>)
      modifies this
      ensures |ids| <= batch && Distinct(ids) && forall id | id in ids :: id !in locked
      ensures |ids| < batch ==> forall id | id in old(events) && Due(old(events)[id], now) && id !in locked :: id in ids
      ensures Current() == Next(old(Current()), Take(worker, (set id | id in ids), now), max)
    {
      ids := SelectDue(batch, now, locked);
      ghost var before, held := events, claims;
      MarkNone(before, held, worker);
      for j := 0 to |ids|
        invariant events == Marked(before, ids[..j]) && claims == held + ClaimsOf(before, worker, ids[..j])
      {
        MarkOne(before, worker, ids, j);
        claims := claims + {Claim(worker, ids[j], events[ids[j]].attempts)};
        events := events[ids[j] := Claimed(events[ids[j]])];
      }
      assert ids[..|ids|] == ids;
      MarkedIsTaken(State(before, held), worker, ids, now, max);
    }

    /** `deadLetter`. */
    method Bury(id: Id)
      requires id in events
      modifies `events
      ensures events == old(events)[id := Buried(old(events)[id])]
    {
      events := events[id := Buried(events[id])];
    }

    /** `retry`: the worker counts on its own copy of the event. */
    method Retry(held: Claim, now: int)
      requires held.event in events
      modifies `events
      ensures events == old(events)[held.event := Retried(old(events)[held.event], held.attempts, max, now)]
    {
      var attempts := held.attempts + 1;
      if attempts >= max {
        Bury(held.event);
        return;
      }
      events := events[held.event := events[held.event].(status := Pending, nextRetry := now + Delay(attempts))];
    }

    /** `deliver`: what becomes of a held event, by the answer to the request. */
    method Deliver(held: Claim, outcome: Outcome, now: int)
      requires held in claims && held.event in events
      modifies this
      ensures Current() == Next(old(Current()), Settle(held, outcome, now), max)
    {
      match outcome {
        case Accepted => events := events[held.event := events[held.event].(status := Delivered, nextRetry := 0)];
        case Rejected => Bury(held.event);
        case Failed => Retry(held, now);
        case Lost =>
          assert events == events[held.event := events[held.event]];
      }
      claims := claims - {held};
    }

    /** `Replay`. */
    method ReplayDead(ids: set<Id>, now: int)
      modifies `events
      ensures Current() == Next(old(Current()), Replay(ids, now), max)
    {
      events := map id | id in events :: if id in ids && events[id].status == DeadLetter then Replayed(events[id], now) else events[id];
    }
  }
}

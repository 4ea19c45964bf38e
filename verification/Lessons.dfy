/** What scheduled lessons occupy: the quantities that both the solver and the validator count. */
module Lessons {
  import opened Model

  /** What a lesson takes exclusive hold of in each of its periods. */
  datatype Kind = TeacherUse | CohortUse | LearnerUse | GroupUse | ResourceUse

  function Dedup(values: seq<Id>): (r: seq<Id>)
    ensures Distinct(r) && forall x :: x in r <==> x in values && x != NO_ID
  {
    if values == [] then []
    else
      var rest, last := Dedup(values[..|values| - 1]), values[|values| - 1];
      assert values == values[..|values| - 1] + [last];
      if last == NO_ID || last in rest then rest else rest + [last]
  }

  /** `uniqueStrings`: without blanks and repetitions, sorted. */
  function UniqueIds(values: seq<Id>): (r: seq<Id>)
    ensures Distinct(r) && Ascending(r) && forall x :: x in r <==> x in values && x != NO_ID
  {
    var r := SortIds(Dedup(values));
    SameElements(Dedup(values), r);
    DistinctPermutation(Dedup(values), r);
    r
  }

  /** The assignments a lesson covers. */
  function AssignmentIds(p: Placement): (r: seq<Id>)
    ensures Distinct(r)
  {
    if p.assignments != [] then UniqueIds(p.assignments) else if p.assignment != NO_ID then [p.assignment] else []
  }

  function CohortIds(p: Placement): (r: seq<Id>)
    ensures Distinct(r)
  {
    if p.cohorts != [] then UniqueIds(p.cohorts) else if p.cohort != NO_ID then [p.cohort] else []
  }

  /** A lesson that lists its learners occupies those learners instead of whole cohorts. */
  function Keys(kind: Kind, p: Placement): seq<Id> {
    match kind
    case TeacherUse => [p.teacher]
    case CohortUse => if p.learners == [] then CohortIds(p) else []
    case LearnerUse => p.learners
    case GroupUse => if p.group != NO_ID then [p.group] else []
    case ResourceUse => if p.resource != NO_ID then [p.resource] else []
  }

  function At(keys: seq<Id>, period: Id): multiset<(Id, Id)> {
    if keys == [] then multiset{} else At(keys[..|keys| - 1], period) + multiset{(keys[|keys| - 1], period)}
  }

  function Pairs(keys: seq<Id>, periods: seq<Id>): multiset<(Id, Id)> {
    if periods == [] then multiset{} else Pairs(keys, periods[..|periods| - 1]) + At(keys, periods[|periods| - 1])
  }

  /** The nested counters of the validator: how often each key is used in each period. */
  function Bookings(kind: Kind, ps: seq<Placement>): multiset<(Id, Id)> {
    if ps == [] then multiset{}
    else Bookings(kind, ps[..|ps| - 1]) + Pairs(Keys(kind, ps[|ps| - 1]), ps[|ps| - 1].periods)
  }

  /** The periods credited to an assignment. */
  function Credit(ps: seq<Placement>, id: Id): nat {
    if ps == [] then 0
    else Credit(ps[..|ps| - 1], id) + if id in AssignmentIds(ps[|ps| - 1]) then |ps[|ps| - 1].periods| else 0
  }

  function TeacherLoad(ps: seq<Placement>, teacher: Id): nat {
    if ps == [] then 0
    else TeacherLoad(ps[..|ps| - 1], teacher) + if ps[|ps| - 1].teacher == teacher then |ps[|ps| - 1].periods| else 0
  }

  lemma {:induction false} AtCount(keys: seq<Id>, period: Id, x: (Id, Id))
    ensures At(keys, period)[x] == if x.1 == period then multiset(keys)[x.0] else 0
  {
    if keys != [] {
      AtCount(keys[..|keys| - 1], period, x);
      assert keys == keys[..|keys| - 1] + [keys[|keys| - 1]];
    }
  }

  lemma {:induction false} PairsCount(keys: seq<Id>, periods: seq<Id>, x: (Id, Id))
    ensures Pairs(keys, periods)[x] == multiset(keys)[x.0] * multiset(periods)[x.1]
  {
    if periods != [] {
      var rest: seq<Id> := periods[..|periods| - 1];
      var last := periods[|periods| - 1];
      PairsCount(keys, rest, x);
      AtCount(keys, last, x);
      assert periods == rest + [last];
      var k, n := multiset(keys)[x.0], multiset(rest)[x.1];
      assert multiset(periods)[x.1] == n + if last == x.1 then 1 else 0;
      ProductStep(k, n, multiset(periods)[x.1], last == x.1);
    }
  }

  lemma ProductStep(k: nat, n: nat, m: nat, more: bool)
    requires m == n + if more then 1 else 0
    ensures k * m == k * n + if more then k else 0
  {
    if more {
      assert k * (n + 1) == k * n + k;
    }
  }

  /** One lesson uses a key in a period exactly when the key is one of its keys and the period one of its periods. */
  lemma PairsMember(keys: seq<Id>, periods: seq<Id>, k: Id, per: Id)
    ensures (k, per) in Pairs(keys, periods) <==> k in keys && per in periods
  {
    PairsCount(keys, periods, (k, per));
    assert k in keys <==> multiset(keys)[k] > 0;
    assert per in periods <==> multiset(periods)[per] > 0;
    Positive(multiset(keys)[k], multiset(periods)[per]);
  }

  lemma Positive(a: nat, b: nat)
    ensures a * b > 0 <==> a > 0 && b > 0
  {
    if a > 0 && b > 0 {
      assert a * b >= b;
    }
  }

  lemma BookingsAppend(kind: Kind, ps: seq<Placement>, p: Placement)
    ensures Bookings(kind, ps + [p]) == Bookings(kind, ps) + Pairs(Keys(kind, p), p.periods)
  {
    assert (ps + [p])[..|ps|] == ps;
  }

  lemma CreditAppend(ps: seq<Placement>, p: Placement, id: Id)
    ensures Credit(ps + [p], id) == Credit(ps, id) + if id in AssignmentIds(p) then |p.periods| else 0
  {
    assert (ps + [p])[..|ps|] == ps;
  }

  lemma TeacherLoadAppend(ps: seq<Placement>, p: Placement, t: Id)
    ensures TeacherLoad(ps + [p], t) == TeacherLoad(ps, t) + if p.teacher == t then |p.periods| else 0
  {
    assert (ps + [p])[..|ps|] == ps;
  }

  lemma {:induction false} CreditedHasLesson(ps: seq<Placement>, id: Id)
    requires Credit(ps, id) > 0
    ensures exists p | p in ps :: id in AssignmentIds(p) && p.periods != []
  {
    hide AssignmentIds;
    var rest, last := ps[..|ps| - 1], ps[|ps| - 1];
    assert ps == rest + [last];
    if !(id in AssignmentIds(last) && last.periods != []) {
      CreditedHasLesson(rest, id);
    }
  }

  /** Some lesson books the key in the period. */
  ghost predicate Booked(kind: Kind, ps: seq<Placement>, k: Id, per: Id) {
    exists p | p in ps :: k in Keys(kind, p) && per in p.periods
  }

  lemma {:induction false} BookedIffCounted(kind: Kind, ps: seq<Placement>, k: Id, per: Id)
    ensures Booked(kind, ps, k, per) <==> (k, per) in Bookings(kind, ps)
  {
    if ps != [] {
      var rest, last := ps[..|ps| - 1], ps[|ps| - 1];
      assert ps == rest + [last];
      BookedIffCounted(kind, rest, k, per);
      PairsMember(Keys(kind, last), last.periods, k, per);
      assert Booked(kind, ps, k, per) <==> Booked(kind, rest, k, per) || (k in Keys(kind, last) && per in last.periods);
    }
  }

  // ----- the pairwise meaning of the counters

  /** No two lessons, and no lesson twice, use a key in the same period. */
  ghost predicate NoClash(kind: Kind, ps: seq<Placement>) {
    && (forall i, j, k, per | 0 <= i < j < |ps| && k in Keys(kind, ps[i]) && per in ps[i].periods ::
          !(k in Keys(kind, ps[j]) && per in ps[j].periods))
    && (forall p | p in ps && Keys(kind, p) != [] && p.periods != [] :: Distinct(Keys(kind, p)) && Distinct(p.periods))
  }

  ghost predicate AtMostOnce(m: multiset<(Id, Id)>) {
    forall x :: m[x] <= 1
  }

  lemma AtMostOncePairs(keys: seq<Id>, periods: seq<Id>)
    ensures AtMostOnce(Pairs(keys, periods)) <==> (keys != [] && periods != [] ==> Distinct(keys) && Distinct(periods))
  {
    DistinctMultiset(keys);
    DistinctMultiset(periods);
    if keys != [] && periods != [] {
      if Distinct(keys) && Distinct(periods) {
        forall x ensures Pairs(keys, periods)[x] <= 1 {
          PairsCount(keys, periods, x);
          UnitProduct(multiset(keys)[x.0], multiset(periods)[x.1]);
        }
      } else {
        var k, per := keys[0], periods[0];
        if !Distinct(keys) {
          k :| k in keys && multiset(keys)[k] != 1;
        } else {
          per :| per in periods && multiset(periods)[per] != 1;
        }
        PairsCount(keys, periods, (k, per));
        BigProduct(multiset(keys)[k], multiset(periods)[per]);
      }
    } else {
      forall x ensures Pairs(keys, periods)[x] <= 1 {
        PairsCount(keys, periods, x);
      }
    }
  }

  lemma UnitProduct(a: nat, b: nat)
    requires a <= 1 && b <= 1
    ensures a * b <= 1
  {
  }

  lemma BigProduct(a: nat, b: nat)
    requires a >= 1 && b >= 1 && (a > 1 || b > 1)
    ensures a * b > 1
  {
    assert a * b >= a && a * b >= b;
  }

  /** The counters of a kind never exceed one exactly when the lessons never clash. */
  lemma {:induction false} ExclusiveIffNoClash(kind: Kind, ps: seq<Placement>)
    ensures AtMostOnce(Bookings(kind, ps)) <==> NoClash(kind, ps)
  {
    if ps != [] {
      hide *;
      var rest, last := ps[..|ps| - 1], ps[|ps| - 1];
      assert ps == rest + [last];
      ExclusiveIffNoClash(kind, rest);
      BookingsAppend(kind, rest, last);
      AtMostOncePairs(Keys(kind, last), last.periods);
      SumAtMostOnce(Bookings(kind, rest), Pairs(Keys(kind, last), last.periods));
      CountersMeanUse(kind, rest, last);
      NoClashStep(kind, rest, last);
    }
  }

  lemma CountersMeanUse(kind: Kind, rest: seq<Placement>, last: Placement)
    ensures (forall k, per :: !((k, per) in Bookings(kind, rest) && (k, per) in Pairs(Keys(kind, last), last.periods)))
       <==> forall k, per | k in Keys(kind, last) && per in last.periods :: !Booked(kind, rest, k, per)
  {
    hide *;
    forall k, per
      ensures (k, per) in Bookings(kind, rest) <==> Booked(kind, rest, k, per)
      ensures (k, per) in Pairs(Keys(kind, last), last.periods) <==> k in Keys(kind, last) && per in last.periods
    {
      BookedIffCounted(kind, rest, k, per);
      PairsMember(Keys(kind, last), last.periods, k, per);
    }
  }

  lemma SumAtMostOnce(a: multiset<(Id, Id)>, b: multiset<(Id, Id)>)
    ensures AtMostOnce(a + b) <==> AtMostOnce(a) && AtMostOnce(b) && forall k, per :: !((k, per) in a && (k, per) in b)
  {
    if AtMostOnce(a + b) {
      forall x ensures a[x] <= 1 && b[x] <= 1 && !(x in a && x in b) {
        assert (a + b)[x] <= 1;
      }
    }
    if AtMostOnce(a) && AtMostOnce(b) && forall k, per :: !((k, per) in a && (k, per) in b) {
      forall x ensures (a + b)[x] <= 1 {
        assert x == (x.0, x.1);
      }
    }
  }

  lemma NoClashStep(kind: Kind, rest: seq<Placement>, last: Placement)
    ensures NoClash(kind, rest + [last]) <==>
              && NoClash(kind, rest)
              && (Keys(kind, last) != [] && last.periods != [] ==> Distinct(Keys(kind, last)) && Distinct(last.periods))
              && forall k, per | k in Keys(kind, last) && per in last.periods :: !Booked(kind, rest, k, per)
  {
    var ps := rest + [last];
    if NoClash(kind, ps) {
      forall i, j, k, per | 0 <= i < j < |rest| && k in Keys(kind, rest[i]) && per in rest[i].periods
        ensures !(k in Keys(kind, rest[j]) && per in rest[j].periods)
      {
        assert ps[i] == rest[i] && ps[j] == rest[j];
      }
      forall k, per | k in Keys(kind, last) && per in last.periods
        ensures !Booked(kind, rest, k, per)
      {
        assert ps[|rest|] == last;
        forall i | 0 <= i < |rest|
          ensures !(k in Keys(kind, rest[i]) && per in rest[i].periods)
        {
          assert ps[i] == rest[i];
        }
      }
      assert last in ps && forall p | p in rest :: p in ps;
    }
    if && NoClash(kind, rest)
       && (Keys(kind, last) != [] && last.periods != [] ==> Distinct(Keys(kind, last)) && Distinct(last.periods))
       && forall k, per | k in Keys(kind, last) && per in last.periods :: !Booked(kind, rest, k, per) {
      forall i, j, k, per | 0 <= i < j < |ps| && k in Keys(kind, ps[i]) && per in ps[i].periods
        ensures !(k in Keys(kind, ps[j]) && per in ps[j].periods)
      {
        assert ps[i] == rest[i] && ps[i] in rest;
        if j == |rest| && k in Keys(kind, last) && per in last.periods {
          assert Booked(kind, rest, k, per);
        }
      }
    }
  }

  lemma NoClashRest(kind: Kind, rest: seq<Placement>, p: Placement)
    requires NoClash(kind, rest + [p])
    ensures NoClash(kind, rest)
  {
    NoClashStep(kind, rest, p);
    hide NoClash;
  }
}

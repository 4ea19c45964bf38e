/** The Latin rotation behind the generated timetables (`GenerateFeasibleSimulation`): who teaches whom, and when. */
module Rotation {
  import opened Model

  datatype Profile = Profile(teachers: nat, cohorts: nat, subjects: nat, days: nat, perDay: nat, double: bool, limits: bool)

  /** The sizes for which the construction is meant: no more cohorts than teachers, and half days that double lessons fill. */
  predicate Sized(profile: Profile) {
    1 <= profile.cohorts <= profile.teachers && profile.subjects >= 1 && (profile.double ==> profile.perDay % 4 == 0)
  }

  function Length(profile: Profile): nat {
    profile.days * profile.perDay
  }

  function Turn(profile: Profile, i: nat): nat {
    if profile.double then (i / 2) * 2 else i
  }

  /** A teacher, a cohort and a subject, by number. */
  datatype Key = Key(teacher: nat, cohort: nat, subject: nat)

  /** The lesson of a cohort in a period. */
  function KeyAt(profile: Profile, c: nat, i: nat): Key
    requires profile.teachers > 0 && profile.subjects > 0
  {
    Key((c + Turn(profile, i)) % profile.teachers, c, (c * 7 + Turn(profile, i)) % profile.subjects)
  }

  /** In one period different cohorts have different teachers. */
  lemma RotationIsLatin(profile: Profile, c: nat, d: nat, i: nat)
    requires Sized(profile) && c < profile.cohorts && d < profile.cohorts
    requires KeyAt(profile, c, i).teacher == KeyAt(profile, d, i).teacher
    ensures c == d
  {
    SameRemainder(c, d, Turn(profile, i), profile.teachers);
  }

  /** The rotation never gives a teacher two cohorts at once exactly when there are no more cohorts than teachers. */
  lemma LatinIff(profile: Profile)
    requires profile.teachers > 0 && profile.subjects > 0 && Length(profile) > 0
    ensures profile.cohorts <= profile.teachers <==>
              forall c: nat, d: nat, i: nat | c < d < profile.cohorts && i < Length(profile) ::
                KeyAt(profile, c, i).teacher != KeyAt(profile, d, i).teacher
  {
    if profile.cohorts <= profile.teachers {
      forall c: nat, d: nat, i: nat | c < d < profile.cohorts && i < Length(profile)
        ensures KeyAt(profile, c, i).teacher != KeyAt(profile, d, i).teacher
      {
        if KeyAt(profile, c, i).teacher == KeyAt(profile, d, i).teacher {
          SameRemainder(c, d, Turn(profile, i), profile.teachers);
        }
      }
    } else {
      assert Turn(profile, 0) == 0;
      assert KeyAt(profile, 0, 0).teacher == KeyAt(profile, profile.teachers, 0).teacher;
    }
  }

  lemma RemainderOfSum(x: nat, d: nat, n: nat)
    requires n > 0
    ensures (x + d) % n == (x % n + d) % n
  {
    Division(x, n);
    Division(x % n + d, n);
    Combine(x, d, n, x / n, x % n, (x % n + d) / n, (x % n + d) % n);
  }

  lemma Combine(x: nat, d: nat, n: nat, q: nat, rest: nat, p: nat, s: nat)
    requires x == n * q + rest && rest + d == n * p + s && s < n
    ensures (x + d) % n == s
  {
    Join(n, q, p);
    Quotient(x + d, n, q + p, s);
  }

  lemma Division(x: nat, n: nat)
    requires n > 0
    ensures x == n * (x / n) + x % n && x % n < n
  {
  }

  lemma Join(n: int, q: int, p: int)
    ensures n * q + n * p == n * (q + p)
  {
  }

  lemma Quotient(x: nat, n: nat, q: nat, r: nat)
    requires n > 0 && x == n * q + r && r < n
    ensures x / n == q && x % n == r
  {
    assert x == n * (x / n) + x % n;
    DigitsAgree(q, r, x / n, x % n, n);
  }

  /** From one turn to the next every cohort goes on to the next teacher and the next subject; the two periods of a double turn are the
      same lesson. In the first period the cohorts stand in the order of the teachers. */
  lemma RotationAdvances(profile: Profile, c: nat, i: nat)
    requires Sized(profile) && c < profile.cohorts
    ensures KeyAt(profile, c, 0) == Key(c, c, (7 * c) % profile.subjects)
    ensures !profile.double ==>
              KeyAt(profile, c, i + 1) == Key((KeyAt(profile, c, i).teacher + 1) % profile.teachers, c, (KeyAt(profile, c, i).subject + 1) % profile.subjects)
    ensures profile.double && i % 2 == 0 ==>
              && KeyAt(profile, c, i + 1) == KeyAt(profile, c, i)
              && KeyAt(profile, c, i + 2) == Key((KeyAt(profile, c, i).teacher + 2) % profile.teachers, c, (KeyAt(profile, c, i).subject + 2) % profile.subjects)
  {
    SmallRemainder(c, profile.teachers);
    assert c + 0 == c && c * 7 + 0 == 7 * c;
    var step := if profile.double then 2 else 1;
    TurnAdvances(profile, i);
    hide Turn;
    RemainderOfSum(c + Turn(profile, i), step, profile.teachers);
    RemainderOfSum(c * 7 + Turn(profile, i), step, profile.subjects);
  }

  lemma TurnAdvances(profile: Profile, i: nat)
    ensures Turn(profile, 0) == 0
    ensures !profile.double ==> Turn(profile, i + 1) == Turn(profile, i) + 1
    ensures profile.double && i % 2 == 0 ==> Turn(profile, i + 1) == Turn(profile, i) && Turn(profile, i + 2) == Turn(profile, i) + 2
  {
  }

  lemma SmallRemainder(x: nat, n: nat)
    requires x < n
    ensures x % n == x
  {
  }

  /** Without double lessons, a cohort has every teacher exactly once in any stretch of as many periods as there are teachers. */
  lemma EveryTeacherOnce(profile: Profile, c: nat, start: nat, t: nat) returns (i: nat)
    requires Sized(profile) && !profile.double && c < profile.cohorts && t < profile.teachers
    ensures start <= i < start + profile.teachers && KeyAt(profile, c, i).teacher == t
    ensures forall j: nat | start <= j < start + profile.teachers && KeyAt(profile, c, j).teacher == t :: j == i
  {
    var n := profile.teachers;
    var first := (c + start) % n;
    var d := if t >= first then t - first else t - first + n;
    i := start + d;
    RemainderOfSum(c + start, d, n);
    if t >= first {
      SmallRemainder(t, n);
    } else {
      RemainderOfSum(n, t, n);
      SmallRemainder(t, n);
      assert n % n == 0;
    }
    forall j: nat | start <= j < start + n && KeyAt(profile, c, j).teacher == t
      ensures j == i
    {
      SameRemainder(j - start, d, c + start, n);
    }
  }

  lemma SameRemainder(c: nat, d: nat, r: nat, n: nat)
    requires c < n && d < n && (c + r) % n == (d + r) % n
    ensures c == d
  {
    var q, p := (c + r) / n, (d + r) / n;
    assert c + r == n * q + (c + r) % n && d + r == n * p + (d + r) % n;
    assert c - d == n * (q - p) by {
      Factor(n, q, p);
    }
    if q > p {
      MultipleIsLarge(n, q - p);
    } else if q < p {
      MultipleIsLarge(n, p - q);
      Factor(n, p, q);
    }
  }

  lemma Factor(n: int, q: int, p: int)
    ensures n * q - n * p == n * (q - p)
  {
  }

  lemma MultipleIsLarge(n: nat, k: nat)
    requires k > 0
    ensures n * k >= n
  {
  }

  /** The periods before `n` in which the lesson takes place, in ascending order. */
  function Slots(profile: Profile, key: Key, n: nat): seq<nat>
    requires Sized(profile)
  {
    if n == 0 then []
    else if KeyAt(profile, key.cohort, n - 1) == key then Slots(profile, key, n - 1) + [n - 1]
    else Slots(profile, key, n - 1)
  }

  lemma {:induction false} SlotsFacts(profile: Profile, key: Key, n: nat)
    requires Sized(profile)
    ensures forall i :: i in Slots(profile, key, n) <==> 0 <= i < n && KeyAt(profile, key.cohort, i) == key
    ensures forall j, k | 0 <= j < k < |Slots(profile, key, n)| :: Slots(profile, key, n)[j] < Slots(profile, key, n)[k]
    ensures |Slots(profile, key, n)| <= n
  {
    hide KeyAt;
    if n > 0 {
      SlotsFacts(profile, key, n - 1);
      var before := Slots(profile, key, n - 1);
      assert forall j | 0 <= j < |before| :: before[j] in before;
    }
  }

  /** The `j`-th pair of slots is a pair of periods that begins at an even one. */
  ghost predicate PairAt(slots: seq<nat>, j: nat) {
    2 * j + 1 < |slots| && slots[2 * j] % 2 == 0 && slots[2 * j + 1] == slots[2 * j] + 1
  }

  /** Double rotations change only every second period, so slots come in pairs. */
  lemma {:induction false} SlotsPair(profile: Profile, key: Key, m: nat)
    requires Sized(profile) && profile.double
    ensures InPairs(Slots(profile, key, 2 * m))
  {
    hide *;
    if m == 0 {
      NoSlots(profile, key);
    } else {
      var i := 2 * (m - 1);
      SlotsPair(profile, key, m - 1);
      SameTurn(profile, key, i);
      SlotsTwice(profile, key, i);
      PairsExtend(Slots(profile, key, i), i);
      assert i + 2 == 2 * m;
    }
  }

  lemma NoSlots(profile: Profile, key: Key)
    requires Sized(profile)
    ensures Slots(profile, key, 0) == [] && InPairs([])
  {
  }

  ghost predicate InPairs(slots: seq<nat>) {
    |slots| % 2 == 0 && forall j: nat | 2 * j < |slots| :: PairAt(slots, j)
  }

  lemma PairsExtend(slots: seq<nat>, i: nat)
    requires InPairs(slots) && i % 2 == 0
    ensures InPairs(slots + [i, i + 1])
  {
    var after := slots + [i, i + 1];
    forall j: nat | 2 * j < |after|
      ensures PairAt(after, j)
    {
      if 2 * j < |slots| {
        assert PairAt(slots, j);
      }
    }
  }

  lemma SameTurn(profile: Profile, key: Key, i: nat)
    requires Sized(profile) && profile.double && i % 2 == 0
    ensures KeyAt(profile, key.cohort, i) == KeyAt(profile, key.cohort, i + 1)
  {
    assert Turn(profile, i) == i == Turn(profile, i + 1);
  }

  lemma SlotsTwice(profile: Profile, key: Key, i: nat)
    requires Sized(profile) && KeyAt(profile, key.cohort, i) == KeyAt(profile, key.cohort, i + 1)
    ensures Slots(profile, key, i + 2) == Slots(profile, key, i) || Slots(profile, key, i + 2) == Slots(profile, key, i) + [i, i + 1]
  {
    hide KeyAt;
  }

  lemma Regroup(d: int, k: int, q: int)
    ensures d * (k * q) == k * (d * q)
  {
  }

  lemma LengthIsEven(profile: Profile)
    requires Sized(profile) && profile.double
    ensures Length(profile) % 2 == 0 && (profile.perDay / 2) % 2 == 0
  {
    var q := profile.perDay / 4;
    assert profile.perDay == 2 * (2 * q);
    Regroup(profile.days, 2, 2 * q);
  }

  // ----- identifiers

  function PeriodId(i: nat): Id {
    i + 1
  }

  function TeacherId(t: nat): Id {
    t + 1
  }

  function CohortId(c: nat): Id {
    c + 1
  }

  function SubjectId(s: nat): Id {
    s + 1
  }

  function CohortSubjectId(profile: Profile, key: Key): Id {
    key.cohort * profile.subjects + key.subject + 1
  }

  function AssignmentId(profile: Profile, key: Key): Id {
    Row(profile, key) * profile.subjects + key.subject + 1
  }

  function Row(profile: Profile, key: Key): nat {
    key.teacher * profile.cohorts + key.cohort
  }

  predicate Proper(profile: Profile, key: Key) {
    key.teacher < profile.teachers && key.cohort < profile.cohorts && key.subject < profile.subjects
  }

  lemma KeyAtIsProper(profile: Profile, c: nat, i: nat)
    requires Sized(profile) && c < profile.cohorts
    ensures Proper(profile, KeyAt(profile, c, i))
  {
  }

  lemma DigitsAgree(a: nat, b: nat, c: nat, d: nat, n: nat)
    requires b < n && d < n && a * n + b == c * n + d
    ensures a == c && b == d
  {
    if a > c {
      Factor(n, a, c);
      MultipleIsLarge(n, a - c);
    } else if a < c {
      Factor(n, c, a);
      MultipleIsLarge(n, c - a);
    }
  }

  /** Different lessons have different assignments. */
  lemma AssignmentIdsDiffer(profile: Profile, k: Key, l: Key)
    requires Proper(profile, k) && Proper(profile, l) && AssignmentId(profile, k) == AssignmentId(profile, l)
    ensures k == l
  {
    SameRow(profile, k, l);
    DigitsAgree(k.teacher, k.cohort, l.teacher, l.cohort, profile.cohorts);
  }

  lemma SameRow(profile: Profile, k: Key, l: Key)
    requires Proper(profile, k) && Proper(profile, l) && AssignmentId(profile, k) == AssignmentId(profile, l)
    ensures Row(profile, k) == Row(profile, l) && k.subject == l.subject
  {
    hide Row;
    DigitsAgree(Row(profile, k), k.subject, Row(profile, l), l.subject, profile.subjects);
  }
}

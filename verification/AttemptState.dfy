/** The mutable state of a solving attempt, shared by the ordinary and the audience solver. */
module AttemptState {
  import opened Model
  import opened Lessons

  /** The lessons placed so far and what is still to be placed; `K` identifies an assignment or an audience task. */
  datatype Books<K(==)> = Books(placements: seq<Placement>, remaining: map<K, int>, doubles: map<K, int>)

  /** A map entry, zero when it is missing. */
  function Left<K(==)>(m: map<K, int>, key: K): int {
    if key in m then m[key] else 0
  }

  /** The books after a lesson for `key`. */
  function Enter<K(==)>(b: Books<K>, p: Placement, key: K): Books<K> {
    Books(b.placements + [p], b.remaining[key := Left(b.remaining, key) - |p.periods|],
          if p.double then b.doubles[key := Left(b.doubles, key) - 1] else b.doubles)
  }

  ghost predicate Shows(occupied: set<(Id, Id)>, kind: Kind, ps: seq<Placement>) {
    forall k: Id, per: Id :: (k, per) in occupied <==> Booked(kind, ps, k, per)
  }

  function Cells(keys: seq<Id>, periods: seq<Id>): set<(Id, Id)> {
    set k, per | k in keys && per in periods :: (k, per)
  }

  lemma OccupyShows(occupied: set<(Id, Id)>, kind: Kind, ps: seq<Placement>, p: Placement)
    requires Shows(occupied, kind, ps)
    ensures Shows(occupied + Cells(Keys(kind, p), p.periods), kind, ps + [p])
  {
    hide Keys;
    forall k: Id, per: Id
      ensures Booked(kind, ps + [p], k, per) <==> Booked(kind, ps, k, per) || (k in Keys(kind, p) && per in p.periods)
    {
      assert forall q :: q in ps + [p] <==> q in ps || q == p;
    }
  }

  /** The five occupancy maps. */
  datatype Occupancy = Occupancy(teachers: set<(Id, Id)>, cohorts: set<(Id, Id)>, learners: set<(Id, Id)>, groups: set<(Id, Id)>,
                                 resources: multiset<(Id, Id)>)

  /** The occupancy maps say exactly what the lessons occupy. */
  ghost predicate Mirrors(o: Occupancy, ps: seq<Placement>) {
    && Shows(o.teachers, TeacherUse, ps) && Shows(o.cohorts, CohortUse, ps)
    && Shows(o.learners, LearnerUse, ps) && Shows(o.groups, GroupUse, ps)
    && o.resources == Bookings(ResourceUse, ps)
  }

  function Occupied(o: Occupancy, p: Placement): Occupancy {
    Occupancy(o.teachers + Cells(Keys(TeacherUse, p), p.periods), o.cohorts + Cells(Keys(CohortUse, p), p.periods),
              o.learners + Cells(Keys(LearnerUse, p), p.periods), o.groups + Cells(Keys(GroupUse, p), p.periods),
              o.resources + Pairs(Keys(ResourceUse, p), p.periods))
  }

  lemma OccupiedMirrors(o: Occupancy, ps: seq<Placement>, p: Placement)
    requires Mirrors(o, ps)
    ensures Mirrors(Occupied(o, p), ps + [p])
  {
    OccupyShows(o.teachers, TeacherUse, ps, p);
    OccupyShows(o.cohorts, CohortUse, ps, p);
    OccupyShows(o.learners, LearnerUse, ps, p);
    OccupyShows(o.groups, GroupUse, ps, p);
    BookingsAppend(ResourceUse, ps, p);
    hide Shows, Keys, Bookings, Pairs, Cells, Booked;
  }

  class State<K(==)> {
    var books: Books<K>
    var occupancy: Occupancy
    var iterations: int
    var timedOut: bool

    constructor ()
      ensures books == Books([], map[], map[]) && iterations == 0 && !timedOut
      ensures Mirrors(occupancy, books.placements)
    {
      books := Books([], map[], map[]);
      occupancy := Occupancy({}, {}, {}, {}, multiset{});
      iterations, timedOut := 0, false;
    }

    /** Enters a lesson for `key`: occupancy, remaining periods, remaining doubles and the lesson itself. */
    method Record(p: Placement, key: K)
      requires Mirrors(occupancy, books.placements)
      modifies `books, `occupancy
      ensures books == Enter(old(books), p, key)
      ensures occupancy == Occupied(old(occupancy), p) && Mirrors(occupancy, books.placements)
    {
      OccupiedMirrors(occupancy, books.placements, p);
      occupancy := Occupied(occupancy, p);
      books := Enter(books, p, key);
    }
  }
}

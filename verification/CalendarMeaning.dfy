/** What the accepted calendar input means, whatever the order in which its breaks are given. */
module CalendarMeaning {
  import opened Model
  import opened Calendar

  /** A break inside the day. */
  predicate InDay(w: Window, from: int, to: int) {
    Readable(w) && from <= w.start.minute < w.end.minute <= to
  }

  predicate Overlap(v: Window, w: Window)
    requires Readable(v) && Readable(w)
  {
    v.start.minute < w.end.minute && w.start.minute < v.end.minute
  }

  /** No break is given twice, and no two overlap. */
  ghost predicate Apart(breaks: seq<Window>)
    requires forall w | w in breaks :: Readable(w)
  {
    Distinct(breaks) && forall v, w | v in breaks && w in breaks && v != w :: !Overlap(v, w)
  }

  ghost predicate BreaksApart(input: Input) {
    (forall w | w in input.breaks :: InDay(w, input.dayStart, input.dayEnd)) && Apart(input.breaks)
  }

  predicate Meets(w: Window, from: int, to: int)
    requires Readable(w)
  {
    w.start.minute < to && from < w.end.minute
  }

  /** A lesson that begins at `s` ends within the day and meets no break. */
  ghost predicate RoomAt(input: Input, s: int)
    requires forall w | w in input.breaks :: Readable(w)
  {
    && input.dayStart <= s && s + input.duration <= input.dayEnd
    && forall w | w in input.breaks :: !Meets(w, s, s + input.duration)
  }

  ghost predicate Named(input: Input, i: int, day: nat) {
    0 <= i < |input.days| && input.days[i] == Known(day)
  }

  /** Some day is known, and none is named twice. */
  ghost predicate DaysNamed(input: Input) {
    (exists i, day :: Named(input, i, day)) && forall i, j, day | i != j && Named(input, i, day) :: !Named(input, j, day)
  }

  // ----- breaks

  lemma {:induction false} EarlierEnds(ranges: seq<Range>, from: int, to: int, i: nat, j: nat)
    requires InSequence(ranges, from, to) && i < j < |ranges|
    ensures ranges[i].end <= ranges[j].start
    decreases j
  {
    if i < j - 1 {
      EarlierEnds(ranges, from, to, i, j - 1);
    }
    assert ranges[j - 1].end <= ranges[j].start;
  }

  /** The sorted ranges are those of the windows. */
  lemma SortedRanges(breaks: seq<Window>)
    requires forall w | w in breaks :: Readable(w)
    ensures forall r :: r in SortRanges(Ranges(breaks)) <==> OfSome(breaks, r)
    ensures multiset(SortRanges(Ranges(breaks))) == multiset(Ranges(breaks))
  {
    RangesAreOfSome(breaks);
    hide SortRanges, Ranges, OfSome;
    SameElements(Ranges(breaks), SortRanges(Ranges(breaks)));
  }

  lemma SequenceIsDistinct(ranges: seq<Range>, from: int, to: int)
    requires InSequence(ranges, from, to)
    ensures Distinct(ranges)
  {
    forall i, j | 0 <= i < j < |ranges|
      ensures ranges[i] != ranges[j]
    {
      EarlierEnds(ranges, from, to, i, j);
    }
  }

  /** Different members of a sequence are in order, and so apart. */
  lemma SequenceIsApart(ranges: seq<Range>, from: int, to: int, r: Range, s: Range)
    requires InSequence(ranges, from, to) && r in ranges && s in ranges
    ensures from <= r.start < r.end <= to
    ensures r != s ==> r.end <= s.start || s.end <= r.start
  {
    var i :| 0 <= i < |ranges| && ranges[i] == r;
    var j :| 0 <= j < |ranges| && ranges[j] == s;
    if i < j {
      EarlierEnds(ranges, from, to, i, j);
    } else if j < i {
      EarlierEnds(ranges, from, to, j, i);
    }
  }

  /** In a list of different ranges, different windows have different ranges. */
  lemma OwnRanges(breaks: seq<Window>, v: Window, w: Window)
    requires (forall u | u in breaks :: Readable(u)) && Distinct(Ranges(breaks)) && v in breaks && w in breaks && v != w
    ensures RangeOf(v) != RangeOf(w)
  {
    RangesOfReadable(breaks);
    hide Ranges;
    var k :| 0 <= k < |breaks| && breaks[k] == v;
    var l :| 0 <= l < |breaks| && breaks[l] == w;
    assert Ranges(breaks)[k] != Ranges(breaks)[l];
  }

  lemma RangesDiffer(breaks: seq<Window>)
    requires (forall w | w in breaks :: Readable(w) && w.start.minute < w.end.minute)
    ensures Apart(breaks) ==> Distinct(Ranges(breaks))
    ensures Distinct(Ranges(breaks)) ==> Distinct(breaks)
  {
    RangesOfReadable(breaks);
    hide Ranges;
    if Apart(breaks) {
      forall k, l | 0 <= k < l < |breaks|
        ensures Ranges(breaks)[k] != Ranges(breaks)[l]
      {
        assert breaks[k] in breaks && breaks[l] in breaks;
        assert !Overlap(breaks[k], breaks[l]);
      }
    }
  }

  lemma FittingIsApart(input: Input)
    requires BreaksFit(input)
    ensures BreaksApart(input)
  {
    var breaks, ranges, sorted, from, to := input.breaks, Ranges(input.breaks), SortRanges(Ranges(input.breaks)), input.dayStart, input.dayEnd;
    SortedRanges(breaks);
    SequenceIsDistinct(sorted, from, to);
    DistinctPermutation(sorted, ranges);
    hide SortRanges, Ranges, InSequence, Distinct;
    forall w | w in breaks
      ensures InDay(w, from, to)
    {
      SequenceIsApart(sorted, from, to, RangeOf(w), RangeOf(w));
    }
    RangesDiffer(breaks);
    forall v, w | v in breaks && w in breaks && v != w
      ensures !Overlap(v, w)
    {
      OwnRanges(breaks, v, w);
      SequenceIsApart(sorted, from, to, RangeOf(v), RangeOf(w));
    }
  }

  lemma ApartIsFitting(input: Input)
    requires BreaksApart(input)
    ensures BreaksFit(input)
  {
    var breaks, sorted, from, to := input.breaks, SortRanges(Ranges(input.breaks)), input.dayStart, input.dayEnd;
    SortedRanges(breaks);
    SortAscends(Ranges(breaks));
    RangesDiffer(breaks);
    DistinctPermutation(Ranges(breaks), sorted);
    hide SortRanges, Ranges;
    forall r | r in sorted
      ensures from <= r.start < r.end <= to
    {
      var w :| w in breaks && RangeOf(w) == r;
      assert InDay(w, from, to);
    }
    forall r, s | r in sorted && s in sorted && r != s && r.start <= s.start
      ensures r.end <= s.start
    {
      var v :| v in breaks && RangeOf(v) == r;
      var w :| w in breaks && RangeOf(w) == s;
      assert !Overlap(v, w);
    }
    InOrder(sorted, from, to);
  }

  lemma InOrder(ranges: seq<Range>, from: int, to: int)
    requires StartsAscend(ranges) && Distinct(ranges) && forall r | r in ranges :: from <= r.start < r.end <= to
    requires forall r, s | r in ranges && s in ranges && r != s && r.start <= s.start :: r.end <= s.start
    ensures InSequence(ranges, from, to)
  {
    forall i | 0 <= i < |ranges|
      ensures from <= ranges[i].start < ranges[i].end <= to
    {
      assert ranges[i] in ranges;
    }
    forall i | 0 < i < |ranges|
      ensures ranges[i - 1].end <= ranges[i].start
    {
      assert ranges[i - 1] in ranges && ranges[i] in ranges && ranges[i - 1] != ranges[i];
    }
  }

  // ----- lessons

  /** A stretch of time between ranges in sequence lies in one of the gaps. */
  lemma RoomIsInAGap(ranges: seq<Range>, from: int, to: int, s: int, duration: int)
    requires InSequence(ranges, from, to) && duration > 0 && from <= s && s + duration <= to
    requires forall r | r in ranges :: r.end <= s || s + duration <= r.start
    ensures LessonFits(ranges, from, to, duration)
  {
    var k := 0;
    while k < |ranges| && ranges[k].end <= s
      invariant 0 <= k <= |ranges| && (k > 0 ==> ranges[k - 1].end <= s)
    {
      k := k + 1;
    }
    if k < |ranges| {
      assert ranges[k] in ranges;
    }
    assert Gap(ranges, from, to, k) >= duration;
  }

  lemma GapIsRoom(ranges: seq<Range>, from: int, to: int, k: nat, duration: int)
    requires InSequence(ranges, from, to) && from <= to && k <= |ranges| && duration > 0 && Gap(ranges, from, to, k) >= duration
    ensures var s := if k == 0 then from else ranges[k - 1].end;
            from <= s && s + duration <= to && forall r | r in ranges :: r.end <= s || s + duration <= r.start
  {
    var s := if k == 0 then from else ranges[k - 1].end;
    forall r | r in ranges
      ensures r.end <= s || s + duration <= r.start
    {
      var i :| 0 <= i < |ranges| && ranges[i] == r;
      if i < k - 1 {
        EarlierEnds(ranges, from, to, i, k - 1);
      } else if k < i {
        EarlierEnds(ranges, from, to, k, i);
      }
    }
  }

  lemma FitsIffRoom(input: Input)
    requires BreaksFit(input) && input.duration > 0 && input.dayStart < input.dayEnd
    ensures LessonFits(SortedBreaks(input), input.dayStart, input.dayEnd, input.duration) <==> exists s :: RoomAt(input, s)
  {
    var sorted, from, to := SortedBreaks(input), input.dayStart, input.dayEnd;
    SortedRanges(input.breaks);
    assert sorted == SortRanges(Ranges(input.breaks)) && InSequence(sorted, from, to);
    hide SortedBreaks, SortRanges, Ranges;
    if LessonFits(sorted, from, to, input.duration) {
      var k: nat :| k <= |sorted| && Gap(sorted, from, to, k) >= input.duration;
      GapIsRoom(sorted, from, to, k, input.duration);
      var s := if k == 0 then from else sorted[k - 1].end;
      forall w | w in input.breaks
        ensures !Meets(w, s, s + input.duration)
      {
        assert RangeOf(w) in sorted;
      }
      assert RoomAt(input, s);
    }
    if s :| RoomAt(input, s) {
      forall r | r in sorted
        ensures r.end <= s || s + input.duration <= r.start
      {
        var w :| w in input.breaks && RangeOf(w) == r;
        assert !Meets(w, s, s + input.duration);
      }
      RoomIsInAGap(sorted, from, to, s, input.duration);
    }
  }

  // ----- days

  /** No known day is named twice. */
  ghost predicate NamedOnce(names: seq<DayName>) {
    forall i, j | 0 <= i < j < |names| && names[i].Known? :: names[i] != names[j]
  }

  lemma NamedOnceMore(names: seq<DayName>, last: DayName)
    ensures NamedOnce(names + [last]) <==> NamedOnce(names) && (last.Known? ==> last !in names)
  {
    var more := names + [last];
    assert more[|names|] == last && forall i | 0 <= i < |names| :: more[i] == names[i];
    if NamedOnce(more) {
      forall i, j | 0 <= i < j < |names| && names[i].Known?
        ensures names[i] != names[j]
      {
        assert more[i] != more[j];
      }
    }
    if last.Known? && last in names {
      var i :| 0 <= i < |names| && names[i] == last;
      assert more[i] == more[|names|];
    }
  }

  lemma {:induction false} KnownAre(names: seq<DayName>)
    ensures forall day :: day in KnownDays(names) <==> Known(day) in names
    ensures Distinct(KnownDays(names)) <==> NamedOnce(names)
  {
    if names != [] {
      var rest, last := names[..|names| - 1], names[|names| - 1];
      KnownAre(rest);
      KnownMore(names);
      assert names == rest + [last];
      NamedOnceMore(rest, last);
      if last.Known? {
        DistinctMore(KnownDays(rest), last.day);
      }
      hide KnownDays, NamedOnce, Distinct;
    }
  }

  lemma KnownMore(names: seq<DayName>)
    requires names != []
    ensures var rest := KnownDays(names[..|names| - 1]);
            KnownDays(names) == if names[|names| - 1].Known? then rest + [names[|names| - 1].day] else rest
  {
  }

  lemma DistinctMore(s: seq<nat>, x: nat)
    ensures Distinct(s + [x]) <==> Distinct(s) && x !in s
  {
    var t := s + [x];
    assert t[|s|] == x && forall i | 0 <= i < |s| :: t[i] == s[i];
    if x in s {
      var i :| 0 <= i < |s| && s[i] == x;
      assert t[i] == t[|s|];
    }
    if Distinct(t) {
      forall i, j | 0 <= i < j < |s|
        ensures s[i] != s[j]
      {
        assert t[i] != t[j];
      }
    }
  }

  lemma DaysMean(input: Input)
    ensures KnownDays(input.days) != [] && Distinct(KnownDays(input.days)) <==> DaysNamed(input)
  {
    KnownAre(input.days);
    hide KnownDays;
    var known := KnownDays(input.days);
    if known != [] {
      assert known[0] in known;
      var i :| 0 <= i < |input.days| && input.days[i] == Known(known[0]);
      assert Named(input, i, known[0]);
    }
    if i, day :| Named(input, i, day) {
      assert Known(day) in input.days;
      assert day in known;
    }
    if NamedOnce(input.days) {
      forall i, j, day | i != j && Named(input, i, day)
        ensures !Named(input, j, day)
      {
        NotTwice(input, if i < j then i else j, if i < j then j else i, day);
      }
    }
    if DaysNamed(input) {
      forall i, j | 0 <= i < j < |input.days| && input.days[i].Known?
        ensures input.days[i] != input.days[j]
      {
        assert Named(input, i, input.days[i].day);
        assert !Named(input, j, input.days[i].day);
      }
    }
  }

  lemma NotTwice(input: Input, i: int, j: int, day: nat)
    requires NamedOnce(input.days) && i < j
    ensures !(Named(input, i, day) && Named(input, j, day))
  {
  }

  // ----- the whole input

  /** Input is accepted exactly when its lessons have a length, its day has one too, its breaks lie inside the day and apart from each other, its days are
      named once each, and somewhere in the day a lesson meets no break. */
  lemma AcceptableIff(input: Input)
    ensures Acceptable(input) <==>
              && input.duration > 0 && input.dayStart < input.dayEnd && BreaksApart(input) && DaysNamed(input)
              && exists s :: RoomAt(input, s)
  {
    DaysMean(input);
    if BreaksApart(input) {
      ApartIsFitting(input);
    }
    if BreaksFit(input) {
      FittingIsApart(input);
      if input.duration > 0 && input.dayStart < input.dayEnd {
        FitsIffRoom(input);
      }
    }
    hide BreaksFit, DaysNamed, LessonFits, SortedBreaks, KnownDays, Apart, RoomAt;
  }

  /** The order in which the breaks are given makes no difference. */
  lemma OrderIsFree(input: Input, other: Input)
    requires multiset(input.breaks) == multiset(other.breaks) && other == input.(breaks := other.breaks)
    ensures Acceptable(input) <==> Acceptable(other)
  {
    AcceptableIff(input);
    AcceptableIff(other);
    SameElements(input.breaks, other.breaks);
    if Distinct(input.breaks) {
      DistinctPermutation(input.breaks, other.breaks);
    }
    if Distinct(other.breaks) {
      DistinctPermutation(other.breaks, input.breaks);
    }
    hide Acceptable, DaysNamed;
    assert DaysNamed(input) == DaysNamed(other) by {
      SameDays(input, other);
    }
    if BreaksApart(input) && BreaksApart(other) {
      forall s: int
        ensures RoomAt(input, s) <==> RoomAt(other, s)
      {
      }
    }
  }

  lemma SameDays(input: Input, other: Input)
    requires input.days == other.days
    ensures DaysNamed(input) == DaysNamed(other)
  {
    forall i, day
      ensures Named(input, i, day) <==> Named(other, i, day)
    {
    }
    hide Named;
  }
}

/** The bell-period generator: from the bounds of the day, the breaks and the period length to the slots of every learning day. */
module Calendar {
  import Model

  datatype Kind = Lesson | Transition | Pause | Lunch | Assembly | NonTeaching

  /** A time of day in minutes, or text that is not one. */
  datatype Clock = At(minute: int) | Unreadable

  datatype Window = Window(start: Clock, end: Clock, kind: Kind)

  datatype Range = Range(start: int, end: int)

  /** A day of the week by name. */
  datatype DayName = Known(day: nat) | Unknown

  datatype Input = Input(days: seq<DayName>, dayStart: int, dayEnd: int, duration: int, breaks: seq<Window>)

  datatype Slot = Slot(day: nat, start: int, end: int, index: int, kind: Kind)

  datatype Code = LearningDaysRequired | InvalidPeriodDuration | InvalidDayRange | InvalidTime | InvalidRange | OutsideDay | Overlapping
                | InvalidLearningDays | DuplicateLearningDay | PartialTeachingPeriod | NoTeachingPeriods

  datatype Result = Slots(slots: seq<Slot>) | Error(code: Code)

  /** A 16-bit integer. */
  function Wrap(n: int): int {
    (n + 0x8000) % 0x1_0000 - 0x8000
  }

  /** Break kinds are what a window may have. */
  predicate IsBreak(kind: Kind) {
    kind != Lesson && kind != Transition
  }

  // ----- the breaks

  predicate Readable(w: Window) {
    w.start.At? && w.end.At?
  }

  function RangeOf(w: Window): Range {
    if Readable(w) then Range(w.start.minute, w.end.minute) else Range(0, 0)
  }

  function InsertRange(r: Range, s: seq<Range>): (t: seq<Range>)
    ensures multiset(t) == multiset{r} + multiset(s)
  {
    if s == [] || r.start <= s[0].start then [r] + s
    else
      assert s == [s[0]] + s[1..];
      [s[0]] + InsertRange(r, s[1..])
  }

  /** The library's sort, by start. */
  function SortRanges(s: seq<Range>): (t: seq<Range>)
    ensures multiset(t) == multiset(s)
  {
    if s == [] then []
    else
      assert s == [s[0]] + s[1..];
      InsertRange(s[0], SortRanges(s[1..]))
  }

  ghost predicate StartsAscend(s: seq<Range>) {
    forall i, j | 0 <= i < j < |s| :: s[i].start <= s[j].start
  }

  lemma {:induction false} InsertAscends(r: Range, s: seq<Range>)
    requires StartsAscend(s)
    ensures StartsAscend(InsertRange(r, s))
  {
    if s != [] && r.start > s[0].start {
      var rest := InsertRange(r, s[1..]);
      InsertAscends(r, s[1..]);
      forall t | t in rest
        ensures s[0].start <= t.start
      {
        assert t in multiset(rest);
        assert t == r || t in s[1..];
      }
    }
  }

  lemma {:induction false} SortAscends(s: seq<Range>)
    ensures StartsAscend(SortRanges(s))
  {
    if s != [] {
      SortAscends(s[1..]);
      InsertAscends(s[0], SortRanges(s[1..]));
    }
  }

  /** The readable windows as ranges. */
  function Ranges(breaks: seq<Window>): seq<Range> {
    if breaks == [] then []
    else
      var w, rest := breaks[|breaks| - 1], Ranges(breaks[..|breaks| - 1]);
      if Readable(w) then rest + [RangeOf(w)] else rest
  }

  /** `parsedBreaks`. */
  method ParsedBreaks(breaks: seq<Window>) returns (parsed: seq<Range>)
    ensures parsed == SortRanges(Ranges(breaks))
  {
    parsed := [];
    for k := 0 to |breaks|
      invariant parsed == Ranges(breaks[..k])
    {
      assert breaks[..k + 1][..k] == breaks[..k];
      if Readable(breaks[k]) {
        parsed := parsed + [RangeOf(breaks[k])];
      }
    }
    assert breaks[..|breaks|] == breaks;
    parsed := SortRanges(parsed);
  }

  /** Ranges inside the day, one after the other. */
  ghost predicate InSequence(ranges: seq<Range>, from: int, to: int) {
    && (forall i | 0 <= i < |ranges| :: from <= ranges[i].start < ranges[i].end <= to)
    && forall i | 0 < i < |ranges| :: ranges[i - 1].end <= ranges[i].start
  }

  ghost predicate BreaksFit(input: Input) {
    (forall w | w in input.breaks :: Readable(w)) && InSequence(SortRanges(Ranges(input.breaks)), input.dayStart, input.dayEnd)
  }

  ghost predicate OfSome(breaks: seq<Window>, r: Range) {
    exists w | w in breaks :: RangeOf(w) == r
  }

  lemma {:induction false} RangesAreOfSome(breaks: seq<Window>)
    requires forall w | w in breaks :: Readable(w)
    ensures forall r :: r in Ranges(breaks) <==> OfSome(breaks, r)
  {
    if breaks != [] {
      var rest, last := breaks[..|breaks| - 1], breaks[|breaks| - 1];
      assert breaks == rest + [last];
      RangesAreOfSome(rest);
      assert forall w :: w in breaks <==> w in rest || w == last;
    }
  }

  datatype Verdict = Fine | Refused(code: Code)

  /** What is wrong with some range, or else with their sequence. */
  ghost predicate Fault(ranges: seq<Range>, from: int, to: int, code: Code) {
    match code
    case InvalidRange => exists r | r in ranges :: r.end <= r.start
    case OutsideDay => exists r | r in ranges :: r.start < from || r.end > to
    case Overlapping => exists i | 0 < i < |ranges| :: ranges[i].start < ranges[i - 1].end
    case _ => false
  }

  method CheckRanges(parsed: seq<Range>, from: int, to: int) returns (verdict: Verdict)
    ensures verdict.Fine? <==> InSequence(parsed, from, to)
    ensures verdict.Refused? ==> Fault(parsed, from, to, verdict.code)
  {
    for i := 0 to |parsed|
      invariant forall j | 0 <= j < i :: from <= parsed[j].start < parsed[j].end <= to
      invariant forall j | 0 < j < i :: parsed[j - 1].end <= parsed[j].start
    {
      if parsed[i].end <= parsed[i].start {
        assert parsed[i] in parsed;
        return Refused(InvalidRange);
      }
      if parsed[i].start < from || parsed[i].end > to {
        assert parsed[i] in parsed;
        return Refused(OutsideDay);
      }
      if i > 0 && parsed[i].start < parsed[i - 1].end {
        return Refused(Overlapping);
      }
    }
    verdict := Fine;
  }

  /** `validateBreakStructure`: accepts exactly the breaks that lie inside the day, one after the other. */
  method ValidateBreakStructure(input: Input) returns (verdict: Verdict)
    ensures verdict.Fine? <==> BreaksFit(input)
    ensures verdict.Refused? ==> BadBreaks(input, verdict.code)
  {
    hide InSequence, SortRanges, Fault;
    for k := 0 to |input.breaks|
      invariant forall j | 0 <= j < k :: Readable(input.breaks[j])
    {
      if !Readable(input.breaks[k]) {
        assert input.breaks[k] in input.breaks;
        SomeUnreadable(input, input.breaks[k]);
        return Refused(InvalidTime);
      }
    }
    var parsed := ParsedBreaks(input.breaks);
    verdict := CheckRanges(parsed, input.dayStart, input.dayEnd);
    if verdict.Refused? {
      FaultMeans(input, verdict.code);
    }
  }

  /** What is wrong with the breaks. */
  ghost predicate BadBreaks(input: Input, code: Code) {
    match code
    case InvalidTime => exists w | w in input.breaks :: !Readable(w)
    case InvalidRange => exists w | w in input.breaks :: Readable(w) && w.end.minute <= w.start.minute
    case OutsideDay => exists w | w in input.breaks :: Readable(w) && (w.start.minute < input.dayStart || w.end.minute > input.dayEnd)
    case Overlapping => exists v, w | v in input.breaks && w in input.breaks :: Readable(v) && Readable(w) && LaterMeets(v, w)
    case _ => false
  }

  /** The second window does not begin before the first, and begins before the first ends. */
  predicate LaterMeets(v: Window, w: Window)
    requires Readable(v) && Readable(w)
  {
    v.start.minute <= w.start.minute < v.end.minute
  }

  lemma SomeUnreadable(input: Input, w: Window)
    requires w in input.breaks && !Readable(w)
    ensures BadBreaks(input, InvalidTime)
  {
  }

  lemma FaultMeans(input: Input, code: Code)
    requires (forall w | w in input.breaks :: Readable(w)) && Fault(SortRanges(Ranges(input.breaks)), input.dayStart, input.dayEnd, code)
    ensures BadBreaks(input, code)
  {
    var sorted := SortRanges(Ranges(input.breaks));
    RangesAreOfSome(input.breaks);
    Model.SameElements(Ranges(input.breaks), sorted);
    SortAscends(Ranges(input.breaks));
    hide SortRanges, Ranges;
    match code
    case InvalidRange =>
      var r :| r in sorted && r.end <= r.start;
      assert OfSome(input.breaks, r);
    case OutsideDay =>
      var r :| r in sorted && (r.start < input.dayStart || r.end > input.dayEnd);
      assert OfSome(input.breaks, r);
    case Overlapping =>
      var i :| 0 < i < |sorted| && sorted[i].start < sorted[i - 1].end;
      assert sorted[i] in sorted && sorted[i - 1] in sorted;
      OverlapMeans(input, sorted[i - 1], sorted[i]);
    case _ =>
  }

  lemma OverlapMeans(input: Input, r: Range, s: Range)
    requires (forall w | w in input.breaks :: Readable(w)) && OfSome(input.breaks, r) && OfSome(input.breaks, s) && r.start <= s.start < r.end
    ensures BadBreaks(input, Overlapping)
  {
    var v :| v in input.breaks && RangeOf(v) == r;
    var w :| w in input.breaks && RangeOf(w) == s;
    assert LaterMeets(v, w);
  }

  // ----- one day

  /** The slots cover the time from `from` to `to` without gap or overlap. */
  ghost predicate Tiled(slots: seq<Slot>, from: int, to: int) {
    if slots == [] then from == to
    else
      && slots[0].start == from && slots[|slots| - 1].end == to
      && (forall i | 0 <= i < |slots| :: slots[i].start < slots[i].end)
      && forall i | 0 < i < |slots| :: slots[i - 1].end == slots[i].start
  }

  /** Numbered from zero, all on the day. */
  ghost predicate Numbered(slots: seq<Slot>, day: nat) {
    forall i | 0 <= i < |slots| :: slots[i].day == day && slots[i].index == i
  }

  /** Lessons have full length; a transition is shorter, and what follows it is a break. */
  ghost predicate Sized(slots: seq<Slot>, duration: int) {
    && (forall i | 0 <= i < |slots| && slots[i].kind == Lesson :: slots[i].end - slots[i].start == duration)
    && (forall i | 0 <= i < |slots| && slots[i].kind == Transition :: slots[i].end - slots[i].start < duration)
    && forall i | 0 < i < |slots| && slots[i - 1].kind == Transition :: IsBreak(slots[i].kind)
  }

  /** The breaks among the slots, in their order. */
  ghost function BreakRanges(slots: seq<Slot>): seq<Range> {
    if slots == [] then []
    else
      var last, rest := slots[|slots| - 1], BreakRanges(slots[..|slots| - 1]);
      if IsBreak(last.kind) then rest + [Range(last.start, last.end)] else rest
  }

  /** A day, or the beginning of one up to `to`, with the given breaks. */
  ghost predicate DayPlan(slots: seq<Slot>, day: nat, from: int, to: int, duration: int, breaks: seq<Range>) {
    Tiled(slots, from, to) && Numbered(slots, day) && Sized(slots, duration) && BreakRanges(slots) == breaks
  }

  /** The time left to teach ends with a break or the day, not with a transition. */
  ghost predicate Open(slots: seq<Slot>) {
    slots == [] || slots[|slots| - 1].kind != Transition
  }

  lemma {:induction false} SlotsFitIn(slots: seq<Slot>, from: int, to: int)
    requires Tiled(slots, from, to)
    ensures |slots| <= to - from
  {
    if |slots| == 1 {
    } else if slots != [] {
      var rest := slots[..|slots| - 1];
      assert Tiled(rest, from, slots[|slots| - 1].start);
      SlotsFitIn(rest, from, slots[|slots| - 1].start);
    }
  }

  lemma TiledMore(slots: seq<Slot>, from: int, to: int, slot: Slot)
    requires Tiled(slots, from, to) && slot.start == to < slot.end
    ensures Tiled(slots + [slot], from, slot.end)
  {
    var more := slots + [slot];
    assert more[|slots|] == slot && forall i | 0 <= i < |slots| :: more[i] == slots[i];
  }

  lemma SizedMore(slots: seq<Slot>, duration: int, slot: Slot)
    requires Sized(slots, duration)
    requires slot.kind == Lesson ==> slot.end - slot.start == duration && Open(slots)
    requires slot.kind == Transition ==> slot.end - slot.start < duration && Open(slots)
    ensures Sized(slots + [slot], duration)
  {
    var more := slots + [slot];
    assert more[|slots|] == slot && forall i | 0 <= i < |slots| :: more[i] == slots[i];
  }

  lemma BreaksMore(slots: seq<Slot>, slot: Slot)
    ensures BreakRanges(slots + [slot]) == if IsBreak(slot.kind) then BreakRanges(slots) + [Range(slot.start, slot.end)] else BreakRanges(slots)
  {
    assert (slots + [slot])[..|slots|] == slots;
  }

  /** One more slot. */
  lemma AddSlot(slots: seq<Slot>, day: nat, from: int, to: int, duration: int, breaks: seq<Range>, slot: Slot)
    requires DayPlan(slots, day, from, to, duration, breaks) && slot.day == day && slot.index == |slots| && slot.start == to < slot.end
    requires slot.kind == Lesson ==> slot.end - slot.start == duration && Open(slots)
    requires slot.kind == Transition ==> slot.end - slot.start < duration && Open(slots)
    ensures DayPlan(slots + [slot], day, from, slot.end, duration, if IsBreak(slot.kind) then breaks + [Range(slot.start, slot.end)] else breaks)
  {
    hide Tiled, Sized, BreakRanges, Open;
    TiledMore(slots, from, to, slot);
    SizedMore(slots, duration, slot);
    BreaksMore(slots, slot);
  }

  /** Slot numbers do not wrap around. */
  lemma PlanIndex(slots: seq<Slot>, day: nat, from: int, to: int, duration: int, breaks: seq<Range>)
    requires DayPlan(slots, day, from, to, duration, breaks) && to - from <= 0x7fff
    ensures Wrap(|slots|) == |slots|
  {
    hide Sized, BreakRanges;
    SlotsFitIn(slots, from, to);
  }

  /** `appendTeachingSegment`: full lessons, and a transition for what is left. */
  method AppendTeachingSegment(given: seq<Slot>, day: nat, given_index: int, start: int, end: int, duration: int,
                               ghost before: seq<Slot>, ghost part: seq<Slot>, ghost from: int, ghost breaks: seq<Range>)
    returns (slots: seq<Slot>, ghost plan: seq<Slot>)
    requires DayPlan(part, day, from, start, duration, breaks) && Open(part) && start < end && duration > 0 && end - from <= 0x7fff
    requires given == before + part && given_index == |part|
    ensures slots == before + plan && part <= plan
    ensures DayPlan(plan, day, from, end, duration, breaks)
    ensures forall i | |part| <= i < |plan| :: !IsBreak(plan[i].kind)
  {
    hide DayPlan, Wrap;
    slots, plan := given, part;
    var current, index := start, given_index;
    while current + duration <= end
      invariant start <= current <= end && slots == before + plan && part <= plan && index == |plan|
      invariant DayPlan(plan, day, from, current, duration, breaks) && Open(plan)
      invariant forall i | |part| <= i < |plan| :: plan[i].kind == Lesson
      decreases end - current
    {
      var slot := Slot(day, current, current + duration, index, Lesson);
      AddSlot(plan, day, from, current, duration, breaks, slot);
      slots := slots + [slot];
      plan := plan + [slot];
      PlanIndex(plan, day, from, current + duration, duration, breaks);
      index := Wrap(index + 1);
      current := current + duration;
    }
    if current < end {
      var slot := Slot(day, current, end, index, Transition);
      AddSlot(plan, day, from, current, duration, breaks, slot);
      slots := slots + [slot];
      plan := plan + [slot];
    }
  }

  /** The kind of the first window with these bounds. */
  function KindOf(item: Range, breaks: seq<Window>): (kind: Kind)
    requires forall w | w in breaks :: IsBreak(w.kind)
    ensures IsBreak(kind)
  {
    if breaks == [] then Pause
    else if Readable(breaks[0]) && RangeOf(breaks[0]) == item then breaks[0].kind
    else KindOf(item, breaks[1..])
  }

  // ----- a whole day

  function ForDay(slots: seq<Slot>, day: nat): seq<Slot> {
    if slots == [] then []
    else
      var rest := ForDay(slots[..|slots| - 1], day);
      if slots[|slots| - 1].day == day then rest + [slots[|slots| - 1]] else rest
  }

  method SlotsForDay(slots: seq<Slot>, day: nat) returns (filtered: seq<Slot>)
    ensures filtered == ForDay(slots, day)
  {
    filtered := [];
    for k := 0 to |slots|
      invariant filtered == ForDay(slots[..k], day)
    {
      assert slots[..k + 1][..k] == slots[..k];
      if slots[k].day == day {
        filtered := filtered + [slots[k]];
      }
    }
    assert slots[..|slots|] == slots;
  }

  lemma {:induction false} OwnSlots(before: seq<Slot>, plan: seq<Slot>, day: nat)
    requires ForDay(before, day) == [] && forall slot | slot in plan :: slot.day == day
    ensures ForDay(before + plan, day) == plan
  {
    if plan == [] {
      assert before + plan == before;
    } else {
      var rest, last := plan[..|plan| - 1], plan[|plan| - 1];
      assert plan == rest + [last];
      OwnSlots(before, rest, day);
      assert before + plan == (before + rest) + [last];
      assert ((before + rest) + [last])[..|before + rest|] == before + rest;
    }
  }

  lemma {:induction false} OtherSlots(before: seq<Slot>, plan: seq<Slot>, day: nat)
    requires forall slot | slot in plan :: slot.day != day
    ensures ForDay(before + plan, day) == ForDay(before, day)
  {
    if plan == [] {
      assert before + plan == before;
    } else {
      var rest, last := plan[..|plan| - 1], plan[|plan| - 1];
      assert plan == rest + [last];
      OtherSlots(before, rest, day);
      assert before + plan == (before + rest) + [last];
      assert ((before + rest) + [last])[..|before + rest|] == before + rest;
    }
  }

  ghost predicate KindsGiven(slots: seq<Slot>, breaks: seq<Window>)
    requires forall w | w in breaks :: IsBreak(w.kind)
  {
    forall slot | slot in slots && IsBreak(slot.kind) :: slot.kind == KindOf(Range(slot.start, slot.end), breaks)
  }

  /** What `buildCalendarVersion` has checked when the slots are generated. */
  ghost predicate Checked(input: Input) {
    && BreaksFit(input) && input.duration > 0 && input.dayStart < input.dayEnd && input.dayEnd - input.dayStart <= 24 * 60
    && forall w | w in input.breaks :: IsBreak(w.kind)
  }

  function SortedBreaks(input: Input): seq<Range> {
    SortRanges(Ranges(input.breaks))
  }

  /** The day up to its `k`-th break. */
  ghost predicate Underway(input: Input, day: nat, plan: seq<Slot>, current: int, k: nat)
    requires Checked(input) && k <= |SortedBreaks(input)|
  {
    && Open(plan) && KindsGiven(plan, input.breaks) && current <= input.dayEnd
    && current == (if k == 0 then input.dayStart else SortedBreaks(input)[k - 1].end)
    && DayPlan(plan, day, input.dayStart, current, input.duration, SortedBreaks(input)[..k])
  }

  lemma DayBegins(input: Input, day: nat)
    requires Checked(input)
    ensures Underway(input, day, [], input.dayStart, 0)
  {
    hide SortedBreaks, KindOf;
    assert SortedBreaks(input)[..0] == [];
  }

  lemma DayGoesOn(input: Input, day: nat, plan: seq<Slot>, k: nat)
    requires Checked(input) && k < |SortedBreaks(input)| && Open(plan) && KindsGiven(plan, input.breaks)
    requires DayPlan(plan, day, input.dayStart, SortedBreaks(input)[k].end, input.duration, SortedBreaks(input)[..k] + [SortedBreaks(input)[k]])
    ensures Underway(input, day, plan, SortedBreaks(input)[k].end, k + 1)
  {
    hide SortedBreaks, KindOf, DayPlan, BreaksFit;
    assert SortedBreaks(input)[..k + 1] == SortedBreaks(input)[..k] + [SortedBreaks(input)[k]];
    assert SortedBreaks(input)[k].end <= input.dayEnd by {
      BreakInDay(input, k);
    }
  }

  lemma BreakInDay(input: Input, k: nat)
    requires Checked(input) && k < |SortedBreaks(input)|
    ensures SortedBreaks(input)[k].end <= input.dayEnd
  {
    hide SortRanges, Ranges;
  }

  lemma DayStands(input: Input, day: nat, plan: seq<Slot>, current: int, k: nat)
    requires Checked(input) && k <= |SortedBreaks(input)| && Underway(input, day, plan, current, k)
    ensures Open(plan) && KindsGiven(plan, input.breaks) && input.dayStart <= current <= input.dayEnd
    ensures DayPlan(plan, day, input.dayStart, current, input.duration, SortedBreaks(input)[..k])
    ensures k < |SortedBreaks(input)| ==> current <= SortedBreaks(input)[k].start < SortedBreaks(input)[k].end <= input.dayEnd
    ensures input.duration > 0 && input.dayEnd - input.dayStart <= 0x7fff && forall w | w in input.breaks :: IsBreak(w.kind)
  {
    hide SortRanges, Ranges, KindOf, DayPlan;
  }

  lemma DayIsFull(input: Input, day: nat, plan: seq<Slot>)
    requires Checked(input) && Underway(input, day, plan, input.dayEnd, |SortedBreaks(input)|)
    ensures DayPlan(plan, day, input.dayStart, input.dayEnd, input.duration, SortedBreaks(input)) && KindsGiven(plan, input.breaks)
  {
    hide SortedBreaks, KindOf, DayPlan;
    assert SortedBreaks(input)[..|SortedBreaks(input)|] == SortedBreaks(input);
  }

  /** The slots of one day: they tile the day, number from zero, show every break and otherwise lessons and transitions. */
  method GenerateDay(before: seq<Slot>, input: Input, day: nat) returns (slots: seq<Slot>, ghost plan: seq<Slot>)
    requires Checked(input) && ForDay(before, day) == []
    ensures slots == before + plan && DayPlan(plan, day, input.dayStart, input.dayEnd, input.duration, SortedBreaks(input))
    ensures KindsGiven(plan, input.breaks)
  {
    hide *;
    var breaks := ParsedBreaks(input.breaks);
    SortedAre(input);
    var current, index := input.dayStart, 0;
    slots, plan := before, [];
    DayBegins(input, day);
    for k := 0 to |breaks|
      invariant slots == before + plan && index == |plan| && Underway(input, day, plan, current, k)
    {
      DayStands(input, day, plan, current, k);
      slots, index, plan := DayStep(before, slots, input, day, current, index, breaks[k], plan, breaks[..k]);
      DayGoesOn(input, day, plan, k);
      current := breaks[k].end;
    }
    DayStands(input, day, plan, current, |breaks|);
    if current < input.dayEnd {
      ghost var part := plan;
      assert breaks[..|breaks|] == breaks;
      slots, plan := AppendTeachingSegment(slots, day, index, current, input.dayEnd, input.duration, before, plan, input.dayStart, breaks);
      SegmentKinds(part, plan, input.breaks);
    } else {
      DayIsFull(input, day, plan);
    }
  }

  lemma SortedAre(input: Input)
    ensures SortRanges(Ranges(input.breaks)) == SortedBreaks(input)
  {
  }

  lemma SegmentKinds(part: seq<Slot>, plan: seq<Slot>, breaks: seq<Window>)
    requires forall w | w in breaks :: IsBreak(w.kind)
    requires part <= plan && KindsGiven(part, breaks) && forall i | |part| <= i < |plan| :: !IsBreak(plan[i].kind)
    ensures KindsGiven(plan, breaks)
  {
    hide KindOf;
    forall slot | slot in plan && IsBreak(slot.kind)
      ensures slot.kind == KindOf(Range(slot.start, slot.end), breaks)
    {
      var i :| 0 <= i < |plan| && plan[i] == slot;
      assert part[i] in part;
    }
  }

  /** One interruption: the lessons before it, then the break itself. */
  method DayStep(ghost before: seq<Slot>, given: seq<Slot>, input: Input, day: nat, current: int, given_index: int, item: Range,
                 ghost part: seq<Slot>, ghost breaks: seq<Range>)
    returns (slots: seq<Slot>, index: int, ghost plan: seq<Slot>)
    requires Checked(input) && ForDay(before, day) == [] && given == before + part && given_index == |part| && Open(part)
    requires KindsGiven(part, input.breaks) && DayPlan(part, day, input.dayStart, current, input.duration, breaks)
    requires input.dayStart <= current <= item.start < item.end <= input.dayEnd
    ensures slots == before + plan && index == |plan| && Open(plan) && KindsGiven(plan, input.breaks)
    ensures DayPlan(plan, day, input.dayStart, item.end, input.duration, breaks + [item])
  {
    hide DayPlan, Wrap, BreaksFit, KindOf, ForDay;
    slots, plan := given, part;
    index := given_index;
    if item.start > current {
      slots, plan := AppendTeachingSegment(given, day, given_index, current, item.start, input.duration, before, part, input.dayStart, breaks);
      SegmentKinds(part, plan, input.breaks);
      var today := SlotsForDay(slots, day);
      PlanDays(plan, day, input.dayStart, item.start, input.duration, breaks);
      OwnSlots(before, plan, day);
      PlanIndex(plan, day, input.dayStart, item.start, input.duration, breaks);
      index := Wrap(|today|);
    }
    var slot := Slot(day, item.start, item.end, index, KindOf(item, input.breaks));
    AddSlot(plan, day, input.dayStart, item.start, input.duration, breaks, slot);
    slots := slots + [slot];
    plan := plan + [slot];
    PlanIndex(plan, day, input.dayStart, item.end, input.duration, breaks + [item]);
    index := Wrap(index + 1);
  }

  lemma PlanDays(plan: seq<Slot>, day: nat, from: int, to: int, duration: int, breaks: seq<Range>)
    requires DayPlan(plan, day, from, to, duration, breaks)
    ensures forall slot | slot in plan :: slot.day == day
  {
  }

  // ----- all days

  ghost predicate DayDone(input: Input, slots: seq<Slot>, day: nat)
    requires Checked(input)
  {
    && DayPlan(ForDay(slots, day), day, input.dayStart, input.dayEnd, input.duration, SortedBreaks(input))
    && KindsGiven(ForDay(slots, day), input.breaks)
  }

  /** Every day has its slots, and there are no others. */
  ghost predicate WeekPlan(input: Input, slots: seq<Slot>, days: seq<nat>)
    requires Checked(input)
  {
    (forall d | d in days :: DayDone(input, slots, d)) && forall slot | slot in slots :: slot.day in days
  }

  lemma {:induction false} NoSlots(slots: seq<Slot>, day: nat)
    requires forall slot | slot in slots :: slot.day != day
    ensures ForDay(slots, day) == []
  {
    if slots != [] {
      assert slots[|slots| - 1] in slots;
      NoSlots(slots[..|slots| - 1], day);
    }
  }

  lemma WeekGoesOn(input: Input, before: seq<Slot>, plan: seq<Slot>, days: seq<nat>, day: nat)
    requires Checked(input) && WeekPlan(input, before, days) && day !in days && ForDay(before, day) == []
    requires DayPlan(plan, day, input.dayStart, input.dayEnd, input.duration, SortedBreaks(input)) && KindsGiven(plan, input.breaks)
    ensures WeekPlan(input, before + plan, days + [day])
  {
    PlanDays(plan, day, input.dayStart, input.dayEnd, input.duration, SortedBreaks(input));
    hide DayPlan, KindsGiven, ForDay, Checked, SortedBreaks;
    OwnSlots(before, plan, day);
    forall d | d in days + [day]
      ensures DayDone(input, before + plan, d)
    {
      if d != day {
        assert DayDone(input, before, d);
        OtherSlots(before, plan, d);
      }
    }
  }

  method GenerateTimeSlots(input: Input, days: seq<nat>) returns (slots: seq<Slot>)
    requires Checked(input) && forall i, j | 0 <= i < j < |days| :: days[i] != days[j]
    ensures WeekPlan(input, slots, days)
  {
    slots := [];
    for k := 0 to |days|
      invariant WeekPlan(input, slots, days[..k])
    {
      assert days[k] !in days[..k] && days[..k + 1] == days[..k] + [days[k]];
      hide Checked, DayDone, DayPlan, KindsGiven;
      NoSlots(slots, days[k]);
      ghost var before, plan := slots, [];
      slots, plan := GenerateDay(slots, input, days[k]);
      WeekGoesOn(input, before, plan, days[..k], days[k]);
    }
    assert days[..|days|] == days;
  }

  lemma {:induction false} ForDayMember(slots: seq<Slot>, slot: Slot)
    requires slot in slots
    ensures slot in ForDay(slots, slot.day)
  {
    var rest, last := slots[..|slots| - 1], slots[|slots| - 1];
    assert slots == rest + [last];
    if slot in rest {
      ForDayMember(rest, slot);
    }
  }

  /** Every generated lesson has full length. */
  lemma LessonsAreFull(input: Input, slots: seq<Slot>, days: seq<nat>, slot: Slot)
    requires Checked(input) && WeekPlan(input, slots, days) && slot in slots && slot.kind == Lesson
    ensures slot.end - slot.start == input.duration
  {
    ForDayMember(slots, slot);
    hide Checked, KindsGiven, ForDay, SortedBreaks;
    assert DayDone(input, slots, slot.day);
    var today := ForDay(slots, slot.day);
    var i :| 0 <= i < |today| && today[i] == slot;
  }

  /** `validateGeneratedLessonSlots`. */
  method ValidateGeneratedLessonSlots(slots: seq<Slot>, duration: int) returns (verdict: Verdict)
    ensures verdict == Refused(PartialTeachingPeriod) <==> exists slot | slot in slots :: slot.kind == Lesson && slot.end - slot.start != duration
    ensures verdict == Refused(NoTeachingPeriods) <==> forall slot | slot in slots :: slot.kind != Lesson
    ensures verdict.Fine? || verdict == Refused(PartialTeachingPeriod) || verdict == Refused(NoTeachingPeriods)
  {
    var count := 0;
    for k := 0 to |slots|
      invariant forall j | 0 <= j < k && slots[j].kind == Lesson :: slots[j].end - slots[j].start == duration
      invariant count > 0 <==> exists j | 0 <= j < k :: slots[j].kind == Lesson
    {
      if slots[k].kind != Lesson {
        continue;
      }
      count := count + 1;
      if slots[k].end - slots[k].start != duration {
        assert slots[k] in slots;
        return Refused(PartialTeachingPeriod);
      }
    }
    verdict := if count == 0 then Refused(NoTeachingPeriods) else Fine;
  }

  /** `normalizeLearningDays`. */
  function KnownDays(names: seq<DayName>): seq<nat> {
    if names == [] then []
    else
      var rest := KnownDays(names[..|names| - 1]);
      if names[|names| - 1].Known? then rest + [names[|names| - 1].day] else rest
  }

  method NormalizeLearningDays(names: seq<DayName>) returns (days: seq<nat>)
    ensures days == KnownDays(names)
  {
    days := [];
    for k := 0 to |names|
      invariant days == KnownDays(names[..k])
    {
      assert names[..k + 1][..k] == names[..k];
      if names[k].Known? {
        days := days + [names[k].day];
      }
    }
    assert names[..|names|] == names;
  }

  method HasDuplicateDays(days: seq<nat>) returns (duplicate: bool)
    ensures duplicate <==> exists i, j :: 0 <= i < j < |days| && days[i] == days[j]
  {
    var seen: set<nat> := {};
    for k := 0 to |days|
      invariant forall d :: d in seen <==> d in days[..k]
      invariant forall i, j | 0 <= i < j < k :: days[i] != days[j]
    {
      if days[k] in seen {
        var i :| 0 <= i < k && days[i] == days[k];
        return true;
      }
      seen := seen + {days[k]};
    }
    duplicate := false;
  }

  // ----- what is accepted

  /** The time between the `k`-th break and the one before it, or the bounds of the day. */
  function Gap(breaks: seq<Range>, from: int, to: int, k: nat): int
    requires k <= |breaks|
  {
    (if k == |breaks| then to else breaks[k].start) - if k == 0 then from else breaks[k - 1].end
  }

  /** Somewhere between the breaks a lesson fits. */
  ghost predicate LessonFits(breaks: seq<Range>, from: int, to: int, duration: int) {
    exists k: nat :: k <= |breaks| && Gap(breaks, from, to, k) >= duration
  }

  lemma TiledRest(slots: seq<Slot>, from: int, to: int)
    requires Tiled(slots, from, to) && slots != []
    ensures var last := slots[|slots| - 1]; Tiled(slots[..|slots| - 1], from, last.start) && last.end == to && last.start < to
  {
  }

  lemma SizedRest(slots: seq<Slot>, duration: int)
    requires Sized(slots, duration) && slots != []
    ensures var rest, last := slots[..|slots| - 1], slots[|slots| - 1];
            && Sized(rest, duration) && (last.kind == Lesson ==> last.end - last.start == duration)
            && (last.kind == Transition ==> last.end - last.start < duration && Open(rest))
  {
    var rest := slots[..|slots| - 1];
    assert forall i | 0 <= i < |rest| :: rest[i] == slots[i];
  }

  /** What the plan was before its last slot. */
  lemma PlanRest(slots: seq<Slot>, day: nat, from: int, to: int, duration: int, breaks: seq<Range>)
    requires DayPlan(slots, day, from, to, duration, breaks) && slots != []
    ensures var rest, last := slots[..|slots| - 1], slots[|slots| - 1];
            && last.end == to && last.start < to
            && (last.kind == Lesson ==> to - last.start == duration) && (last.kind == Transition ==> to - last.start < duration && Open(rest))
            && if IsBreak(last.kind)
               then breaks != [] && breaks[|breaks| - 1] == Range(last.start, to) && DayPlan(rest, day, from, last.start, duration, breaks[..|breaks| - 1])
               else DayPlan(rest, day, from, last.start, duration, breaks)
  {
    TiledRest(slots, from, to);
    SizedRest(slots, duration);
    hide Tiled, Sized, Open;
  }

  /** One more break turns the last stretch into a gap before it. */
  lemma GapsBefore(breaks: seq<Range>, from: int, to: int, item: Range, duration: int)
    requires item.end == to && duration > 0
    ensures LessonFits(breaks + [item], from, to, duration) <==> LessonFits(breaks, from, item.start, duration)
    ensures Tail(breaks + [item], from, to) == 0
  {
    var more := breaks + [item];
    assert Gap(more, from, to, |more|) == 0;
    assert forall k | 0 <= k <= |breaks| :: Gap(more, from, to, k) == Gap(breaks, from, item.start, k);
  }

  /** Only the last stretch depends on the end. */
  lemma GapsShrink(breaks: seq<Range>, from: int, to: int, earlier: int, duration: int)
    requires earlier <= to && LessonFits(breaks, from, earlier, duration)
    ensures LessonFits(breaks, from, to, duration)
  {
    var k: nat :| k <= |breaks| && Gap(breaks, from, earlier, k) >= duration;
    assert Gap(breaks, from, to, k) >= duration;
  }

  /** The stretch after the last break. */
  function Tail(breaks: seq<Range>, from: int, to: int): int {
    Gap(breaks, from, to, |breaks|)
  }

  lemma TailCounts(breaks: seq<Range>, from: int, to: int, earlier: int, duration: int)
    requires !LessonFits(breaks, from, earlier, duration) && earlier <= to
    ensures LessonFits(breaks, from, to, duration) <==> Tail(breaks, from, to) >= duration
  {
    forall k: nat | k < |breaks|
      ensures Gap(breaks, from, to, k) < duration
    {
      assert Gap(breaks, from, to, k) == Gap(breaks, from, earlier, k);
    }
    if Tail(breaks, from, to) >= duration {
      assert Gap(breaks, from, to, |breaks|) >= duration;
    }
  }

  ghost predicate HasLesson(slots: seq<Slot>) {
    exists slot | slot in slots :: slot.kind == Lesson
  }

  /** The day has a lesson exactly when one fits between the breaks. */
  lemma {:induction false} LessonIffFits(slots: seq<Slot>, day: nat, from: int, to: int, duration: int, breaks: seq<Range>)
    requires DayPlan(slots, day, from, to, duration, breaks) && duration > 0
    ensures HasLesson(slots) <==> LessonFits(breaks, from, to, duration)
    ensures Tail(breaks, from, to) >= 0
    ensures !HasLesson(slots) && Open(slots) ==> Tail(breaks, from, to) == 0
  {
    if slots == [] {
      EmptyDay(day, from, to, duration, breaks);
    } else {
      hide *;
      var rest, last := slots[..|slots| - 1], slots[|slots| - 1];
      PlanRest(slots, day, from, to, duration, breaks);
      LastLesson(rest, last);
      assert slots == rest + [last];
      if IsBreak(last.kind) {
        var fewer := breaks[..|breaks| - 1];
        assert breaks == fewer + [Range(last.start, to)];
        LessonIffFits(rest, day, from, last.start, duration, fewer);
        GapsBefore(fewer, from, to, Range(last.start, to), duration);
      } else {
        LessonIffFits(rest, day, from, last.start, duration, breaks);
        TailGrows(breaks, from, to, last.start);
        if HasLesson(rest) {
          GapsShrink(breaks, from, to, last.start, duration);
        } else {
          TailCounts(breaks, from, to, last.start, duration);
        }
      }
    }
  }

  lemma EmptyDay(day: nat, from: int, to: int, duration: int, breaks: seq<Range>)
    requires DayPlan([], day, from, to, duration, breaks) && duration > 0
    ensures !HasLesson([]) && !LessonFits(breaks, from, to, duration) && Tail(breaks, from, to) == 0
  {
    assert breaks == [] && from == to;
  }

  /** What the last slot is, and whether the day ends open. */
  lemma LastLesson(rest: seq<Slot>, last: Slot)
    ensures HasLesson(rest + [last]) <==> HasLesson(rest) || last.kind == Lesson
    ensures IsBreak(last.kind) <==> last.kind != Lesson && last.kind != Transition
    ensures Open(rest + [last]) <==> last.kind != Transition
  {
    assert forall slot :: slot in rest + [last] <==> slot in rest || slot == last;
    assert last in rest + [last];
  }

  lemma TailGrows(breaks: seq<Range>, from: int, to: int, earlier: int)
    ensures Tail(breaks, from, to) == Tail(breaks, from, earlier) + to - earlier
  {
  }

  /** The input that is accepted: readable breaks inside the day, one after the other, each known day once, and room for a lesson. */
  ghost predicate Acceptable(input: Input) {
    && input.duration > 0 && input.dayStart < input.dayEnd && BreaksFit(input)
    && KnownDays(input.days) != [] && Model.Distinct(KnownDays(input.days))
    && LessonFits(SortedBreaks(input), input.dayStart, input.dayEnd, input.duration)
  }

  /** A planned week has a lesson exactly when one fits into the day. */
  lemma WeekHasLesson(input: Input, slots: seq<Slot>, days: seq<nat>)
    requires Checked(input) && WeekPlan(input, slots, days) && days != []
    ensures HasLesson(slots) <==> LessonFits(SortedBreaks(input), input.dayStart, input.dayEnd, input.duration)
  {
    hide LessonFits, SortedBreaks, KindsGiven, DayPlan, ForDay, BreaksFit;
    forall d | d in days
      ensures HasLesson(ForDay(slots, d)) <==> LessonFits(SortedBreaks(input), input.dayStart, input.dayEnd, input.duration)
    {
      assert DayDone(input, slots, d);
      LessonIffFits(ForDay(slots, d), d, input.dayStart, input.dayEnd, input.duration, SortedBreaks(input));
    }
    if HasLesson(slots) {
      var slot :| slot in slots && slot.kind == Lesson;
      ForDayMember(slots, slot);
      assert HasLesson(ForDay(slots, slot.day));
    }
    assert days[0] in days;
    if HasLesson(ForDay(slots, days[0])) {
      var slot :| slot in ForDay(slots, days[0]) && slot.kind == Lesson;
      ForDayFrom(slots, days[0], slot);
    }
  }

  lemma {:induction false} ForDayFrom(slots: seq<Slot>, day: nat, slot: Slot)
    requires slot in ForDay(slots, day)
    ensures slot in slots
  {
    var rest, last := slots[..|slots| - 1], slots[|slots| - 1];
    assert slots == rest + [last];
    if slot in ForDay(rest, day) {
      ForDayFrom(rest, day, slot);
    }
  }

  lemma NothingKnown(input: Input)
    ensures input.days == [] ==> KnownDays(input.days) == []
  {
  }

  /** What is asked of the input before its breaks are looked at. */
  predicate Sane(input: Input) {
    input.days != [] && input.duration > 0 && input.dayStart < input.dayEnd
  }

  /** Why input is refused; no input is ever refused for a shortened teaching period. */
  ghost predicate Reason(input: Input, code: Code) {
    match code
    case LearningDaysRequired => input.days == []
    case InvalidPeriodDuration => input.days != [] && input.duration <= 0
    case InvalidDayRange => input.days != [] && input.duration > 0 && input.dayEnd <= input.dayStart
    case InvalidLearningDays => Sane(input) && BreaksFit(input) && KnownDays(input.days) == []
    case DuplicateLearningDay => Sane(input) && BreaksFit(input) && !Model.Distinct(KnownDays(input.days))
    case NoTeachingPeriods =>
      && Sane(input) && BreaksFit(input) && KnownDays(input.days) != [] && Model.Distinct(KnownDays(input.days))
      && !LessonFits(SortedBreaks(input), input.dayStart, input.dayEnd, input.duration)
    case PartialTeachingPeriod => false
    case _ => Sane(input) && BadBreaks(input, code)
  }

  lemma BadBreaksAre(input: Input, code: Code)
    ensures Sane(input) && BadBreaks(input, code) ==> Reason(input, code)
  {
    hide BreaksFit, KnownDays, LessonFits, SortedBreaks;
  }

  /** `buildCalendarVersion`. Exactly the acceptable input is accepted, and gives a week in which every day is tiled as planned; and no
      input is ever refused for a shortened teaching period. */
  method BuildCalendarVersion(input: Input) returns (result: Result)
    requires forall w | w in input.breaks :: IsBreak(w.kind)
    requires input.dayEnd - input.dayStart <= 24 * 60
    ensures result.Slots? <==> Acceptable(input)
    ensures result.Slots? ==> Checked(input) && WeekPlan(input, result.slots, KnownDays(input.days)) && KnownDays(input.days) != []
    ensures result.Slots? ==> exists slot | slot in result.slots :: slot.kind == Lesson
    ensures result.Error? ==> Reason(input, result.code)
  {
    hide BadBreaks, BreaksFit, WeekPlan, KnownDays, LessonFits, SortedBreaks;
    NothingKnown(input);
    if |input.days| == 0 {
      return Error(LearningDaysRequired);
    }
    if input.duration <= 0 {
      return Error(InvalidPeriodDuration);
    }
    if input.dayEnd <= input.dayStart {
      return Error(InvalidDayRange);
    }
    var verdict := ValidateBreakStructure(input);
    if verdict.Refused? {
      BadBreaksAre(input, verdict.code);
      return Error(verdict.code);
    }
    var days := NormalizeLearningDays(input.days);
    if |days| == 0 {
      return Error(InvalidLearningDays);
    }
    var duplicate := HasDuplicateDays(days);
    if duplicate {
      return Error(DuplicateLearningDay);
    }
    var slots := GenerateTimeSlots(input, days);
    WeekHasLesson(input, slots, days);
    forall slot | slot in slots && slot.kind == Lesson
      ensures slot.end - slot.start == input.duration
    {
      LessonsAreFull(input, slots, days, slot);
    }
    verdict := ValidateGeneratedLessonSlots(slots, input.duration);
    if verdict.Refused? {
      return Error(verdict.code);
    }
    result := Slots(slots);
  }

  // ----- what the plan means for lessons and breaks

  /** Slots with consecutive numbers touch, so a double lesson takes exactly two periods of time. */
  lemma ConsecutiveLessonsTouch(input: Input, slots: seq<Slot>, days: seq<nat>, first: Slot, second: Slot)
    requires Checked(input) && WeekPlan(input, slots, days) && first in slots && second in slots
    requires first.day == second.day && second.index == first.index + 1 && first.kind == Lesson == second.kind
    ensures first.end == second.start && second.end - first.start == 2 * input.duration
  {
    ForDayMember(slots, first);
    ForDayMember(slots, second);
    hide Checked, KindsGiven, ForDay, SortedBreaks;
    assert DayDone(input, slots, first.day);
    var today := ForDay(slots, first.day);
    var i :| 0 <= i < |today| && today[i] == first;
    var j :| 0 <= j < |today| && today[j] == second;
  }

  lemma {:induction false} BreakIsShown(slots: seq<Slot>, r: Range)
    requires r in BreakRanges(slots)
    ensures exists slot | slot in slots :: IsBreak(slot.kind) && slot.start == r.start && slot.end == r.end
  {
    var rest, last := slots[..|slots| - 1], slots[|slots| - 1];
    assert slots == rest + [last];
    if r in BreakRanges(rest) {
      BreakIsShown(rest, r);
    }
  }

  lemma {:induction false} RangesOfReadable(breaks: seq<Window>)
    requires forall w | w in breaks :: Readable(w)
    ensures |Ranges(breaks)| == |breaks| && forall i | 0 <= i < |breaks| :: Ranges(breaks)[i] == RangeOf(breaks[i])
  {
    if breaks != [] {
      assert breaks[|breaks| - 1] in breaks;
      RangesOfReadable(breaks[..|breaks| - 1]);
    }
  }

  lemma {:induction false} InSequenceGrows(ranges: seq<Range>, from: int, to: int, i: nat, j: nat)
    requires InSequence(ranges, from, to) && i < j < |ranges|
    ensures ranges[i].start < ranges[j].start
    decreases j
  {
    if i < j - 1 {
      InSequenceGrows(ranges, from, to, i, j - 1);
    }
    assert ranges[j - 1].end <= ranges[j].start;
  }

  lemma DifferentRanges(input: Input)
    requires Checked(input)
    ensures Model.Distinct(Ranges(input.breaks))
  {
    var sorted := SortedBreaks(input);
    hide Ranges, SortRanges;
    forall i, j | 0 <= i < j < |sorted|
      ensures sorted[i] != sorted[j]
    {
      InSequenceGrows(sorted, input.dayStart, input.dayEnd, i, j);
    }
    Model.DistinctPermutation(sorted, Ranges(input.breaks));
  }

  lemma {:induction false} KindIsOwn(breaks: seq<Window>, w: Window)
    requires (forall v | v in breaks :: Readable(v) && IsBreak(v.kind)) && w in breaks
    requires forall i, j | 0 <= i < j < |breaks| ::
               RangeOf(breaks[i]) != RangeOf(breaks[j])
    ensures KindOf(RangeOf(w), breaks) == w.kind
  {
    assert breaks[0] in breaks;
    if w != breaks[0] {
      var rest := breaks[1..];
      assert forall v | v in rest :: v in breaks;
      var j :| 1 <= j < |breaks| && breaks[j] == w;
      assert rest[j - 1] == w;
      KindIsOwn(rest, w);
    }
  }

  /** Every break of accepted input appears on every day as it was given. */
  lemma BreaksAppear(input: Input, slots: seq<Slot>, days: seq<nat>, day: nat, w: Window)
    requires Checked(input) && WeekPlan(input, slots, days) && day in days && w in input.breaks
    ensures exists slot | slot in ForDay(slots, day) :: Readable(w) && slot.start == w.start.minute && slot.end == w.end.minute && slot.kind == w.kind
  {
    var r := RangeOf(w);
    RangesOfReadable(input.breaks);
    DifferentRanges(input);
    var k :| 0 <= k < |input.breaks| && input.breaks[k] == w;
    assert Ranges(input.breaks)[k] == r;
    KindIsOwn(input.breaks, w);
    Model.SameElements(Ranges(input.breaks), SortedBreaks(input));
    assert DayDone(input, slots, day) && r in SortedBreaks(input);
    BreakIsShown(ForDay(slots, day), r);
  }
}

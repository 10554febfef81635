/** bam/src/availability_builder.cc and the day loop of bam/src/availability_thread.cc: how
    long a business activity was in each status, one day and one time period at a time. */
module Availability {

  /** The seconds a time period covers. */
  type Period = int -> bool

  /** How many of the seconds from `from` to before `to` satisfy p. */
  function Count(p: Period, from: int, until: int): nat
    decreases until - from
  {
    if until <= from then 0 else Count(p, from, until - 1) + if p(until - 1) then 1 else 0
  }

  lemma {:induction false} CountSplits(p: Period, from: int, mid: int, until: int)
    requires from <= mid <= until
    ensures Count(p, from, until) == Count(p, from, mid) + Count(p, mid, until)
    decreases until - mid
  {
    if mid < until { CountSplits(p, from, mid, until - 1); }
  }

  lemma {:induction false} CountIsShort(p: Period, from: int, until: int)
    ensures Count(p, from, until) <= (if from <= until then until - from else 0)
    decreases until - from
  {
    if from < until { CountIsShort(p, from, until - 1); }
  }

  /** timeperiod::duration_intersect. */
  function DurationIntersect(p: Period, start: int, end: int): nat {
    if end < start then 0 else Count(p, start, end)
  }

  /** The duration that add_event takes for a failure, (uint32_t)-1. */
  const FAILED := 0xFFFF_FFFF

  /** An event of a business activity; an end of 0 means that it is still open. */
  datatype Event = Event(status: int, start: int, end: int, inDowntime: bool)

  predicate Covers(e: Event, t: int) { e.start <= t && (e.end == 0 || t < e.end) }

  function Within(p: Period, e: Event): Period { t => p(t) && Covers(e, t) }

  /** What one availability row holds: seconds in each status, and events opened. */
  datatype Tally = Tally(available: int, degraded: int, unavailable: int, unknown: int, downtime: int,
                         degradedOpened: int, unavailableOpened: int, unknownOpened: int, downtimeOpened: int)

  const ZERO := Tally(0, 0, 0, 0, 0, 0, 0, 0, 0)

  function Plus(a: Tally, b: Tally): Tally {
    Tally(a.available + b.available, a.degraded + b.degraded, a.unavailable + b.unavailable,
          a.unknown + b.unknown, a.downtime + b.downtime,
          a.degradedOpened + b.degradedOpened, a.unavailableOpened + b.unavailableOpened,
          a.unknownOpened + b.unknownOpened, a.downtimeOpened + b.downtimeOpened)
  }

  lemma PlusSwaps(a: Tally, b: Tally, c: Tally, d: Tally)
    ensures Plus(Plus(a, b), Plus(c, d)) == Plus(Plus(a, c), Plus(b, d))
  {}

  lemma PlusZero(a: Tally)
    ensures Plus(a, ZERO) == a == Plus(ZERO, a)
  {}

  /** The seconds of all statuses together. */
  function Seconds(t: Tally): int { t.available + t.degraded + t.unavailable + t.unknown + t.downtime }

  predicate OpenedIn(e: Event, from: int, until: int) {
    from <= e.start < until && (e.end == 0 || from <= e.end)
  }

  /** What an event is worth on [from, until): the seconds of the period that it covers there,
      and one if it was opened there. */
  function Share(e: Event, p: Period, from: int, until: int): Tally {
    var seconds, openings := Count(Within(p, e), from, until), if OpenedIn(e, from, until) then 1 else 0;
    if e.inDowntime then ZERO.(downtime := seconds, downtimeOpened := openings)
    else if e.status == 0 then ZERO.(available := seconds)
    else if e.status == 1 then ZERO.(degraded := seconds, degradedOpened := openings)
    else if e.status == 2 then ZERO.(unavailable := seconds, unavailableOpened := openings)
    else ZERO.(unknown := seconds, unknownOpened := openings)
  }

  /** The interval that add_event clips the event to. */
  function ClippedStart(e: Event, from: int): int { if e.start < from then from else e.start }

  function ClippedEnd(e: Event, until: int): int { if e.end == 0 || until < e.end then until else e.end }

  lemma {:induction false} ClippingCounts(e: Event, p: Period, from: int, until: int)
    requires from <= until
    ensures Count(Within(p, e), from, until) == DurationIntersect(p, ClippedStart(e, from), ClippedEnd(e, until))
    decreases until - from
  {
    if from < until {
      ClippingCounts(e, p, from, until - 1);
      var s := ClippedStart(e, from);
      if until <= s {
        assert !Covers(e, until - 1);
      } else if e.end == 0 || until <= e.end {
        assert Within(p, e)(until - 1) == p(until - 1);
      } else {
        assert !Covers(e, until - 1);
      }
    }
  }

  class Builder {
    const start: int
    const end: int
    var available: int
    var unavailable: int
    var degraded: int
    var unknown: int
    var downtime: int
    var alertUnavailableOpened: int
    var alertDegradedOpened: int
    var alertUnknownOpened: int
    var nbDowntime: int

    constructor (endingPoint: int, startingPoint: int)
      ensures start == startingPoint && end == endingPoint && Counted() == ZERO
    {
      start, end := startingPoint, endingPoint;
      available, unavailable, degraded, unknown, downtime := 0, 0, 0, 0, 0;
      alertUnavailableOpened, alertDegradedOpened, alertUnknownOpened, nbDowntime := 0, 0, 0, 0;
    }

    function Counted(): Tally
      reads this
    {
      Tally(available, degraded, unavailable, unknown, downtime,
            alertDegradedOpened, alertUnavailableOpened, alertUnknownOpened, nbDowntime)
    }

    /** Adding an event adds its share of the builder's interval. */
    method AddEvent(e: Event, p: Period)
      requires start <= end && end - start < FAILED
      modifies this
      ensures Counted() == Plus(old(Counted()), Share(e, p, start, end))
    {
      hide Count, Covers;
      ClippingCounts(e, p, start, end);
      var e_start, e_end := e.start, e.end;
      if e_end == 0 { e_end := end; }
      if e_end < start { return; }
      var openedToday := e_start >= start && e_start < end;
      if e_start < start { e_start := start; }
      if end < e_end { e_end := end; }
      assert e_start == ClippedStart(e, start) && e_end == ClippedEnd(e, end);
      var slaDuration := DurationIntersect(p, e_start, e_end);
      CountIsShort(p, e_start, e_end);
      if slaDuration == FAILED { return; }
      if e.inDowntime {
        downtime := downtime + slaDuration;
        if openedToday { nbDowntime := nbDowntime + 1; }
      } else if e.status == 0 {
        available := available + slaDuration;
      } else if e.status == 1 {
        degraded := degraded + slaDuration;
        if openedToday { alertDegradedOpened := alertDegradedOpened + 1; }
      } else if e.status == 2 {
        unavailable := unavailable + slaDuration;
        if openedToday { alertUnavailableOpened := alertUnavailableOpened + 1; }
      } else {
        unknown := unknown + slaDuration;
        if openedToday { alertUnknownOpened := alertUnknownOpened + 1; }
      }
    }
  }

  // ------------------------------------------------------- events of one day

  function Total(es: seq<Event>, p: Period, from: int, until: int): Tally {
    if es == [] then ZERO else Plus(Total(es[..|es| - 1], p, from, until), Share(es[|es| - 1], p, from, until))
  }

  /** At how many of the events a second is counted. */
  function Times(es: seq<Event>, t: int): nat {
    if es == [] then 0 else Times(es[..|es| - 1], t) + if Covers(es[|es| - 1], t) then 1 else 0
  }

  ghost predicate Disjoint(es: seq<Event>) {
    forall i, j, t :: 0 <= i < j < |es| && Covers(es[i], t) ==> !Covers(es[j], t)
  }

  predicate IsCovered(es: seq<Event>, t: int) { exists i :: 0 <= i < |es| && Covers(es[i], t) }

  lemma {:induction false} DisjointTimes(es: seq<Event>, t: int)
    requires Disjoint(es)
    ensures Times(es, t) == if IsCovered(es, t) then 1 else 0
  {
    if es != [] {
      var before, e := es[..|es| - 1], es[|es| - 1];
      assert forall i :: 0 <= i < |before| ==> before[i] == es[i];
      DisjointTimes(before, t);
      if IsCovered(before, t) {
        var i :| 0 <= i < |before| && Covers(before[i], t);
        assert Covers(es[i], t);
      } else if Covers(e, t) {
        assert Covers(es[|es| - 1], t);
      }
    }
  }

  /** One second more counts every event that covers it. */
  lemma {:induction false} TotalMore(es: seq<Event>, p: Period, from: int, until: int)
    requires from < until
    ensures Seconds(Total(es, p, from, until)) ==
            Seconds(Total(es, p, from, until - 1)) + if p(until - 1) then Times(es, until - 1) else 0
  {
    if es != [] { TotalMore(es[..|es| - 1], p, from, until); }
  }

  lemma {:induction false} TotalOfNothing(es: seq<Event>, p: Period, from: int)
    ensures Seconds(Total(es, p, from, from)) == 0
  {
    if es != [] { TotalOfNothing(es[..|es| - 1], p, from); }
  }

  /** Events that do not overlap never total more than the period's part of the interval,
      and exactly that much if and only if they cover all of it. */
  lemma {:induction false} DayIsAccountedFor(es: seq<Event>, p: Period, from: int, until: int)
    requires from <= until && Disjoint(es)
    ensures Seconds(Total(es, p, from, until)) <= Count(p, from, until)
    ensures Seconds(Total(es, p, from, until)) == Count(p, from, until)
            <==> (forall t :: from <= t < until && p(t) ==> IsCovered(es, t))
    decreases until - from
  {
    hide Disjoint, Total, IsCovered, Times;
    if from == until {
      TotalOfNothing(es, p, from);
    } else {
      DayIsAccountedFor(es, p, from, until - 1);
      TotalMore(es, p, from, until);
      DisjointTimes(es, until - 1);
    }
  }

  // ------------------------------------------------- what each column counts

  datatype Column = Available | Degraded | Unavailable | Unknown | Downtime

  function Time(t: Tally, c: Column): int {
    match c
    case Available => t.available
    case Degraded => t.degraded
    case Unavailable => t.unavailable
    case Unknown => t.unknown
    case Downtime => t.downtime
  }

  function Opened(t: Tally, c: Column): int {
    match c
    case Available => 0
    case Degraded => t.degradedOpened
    case Unavailable => t.unavailableOpened
    case Unknown => t.unknownOpened
    case Downtime => t.downtimeOpened
  }

  /** The column of an event: a downtime counts as nothing else, and statuses other than 0, 1
      and 2 are unknown. */
  predicate IsFor(c: Column, e: Event) {
    match c
    case Available => !e.inDowntime && e.status == 0
    case Degraded => !e.inDowntime && e.status == 1
    case Unavailable => !e.inDowntime && e.status == 2
    case Unknown => !e.inDowntime && e.status !in {0, 1, 2}
    case Downtime => e.inDowntime
  }

  /** The activity was then in what the column counts. */
  predicate WasIn(es: seq<Event>, c: Column, t: int) { exists i :: 0 <= i < |es| && IsFor(c, es[i]) && Covers(es[i], t) }

  function During(p: Period, es: seq<Event>, c: Column): Period { t => p(t) && WasIn(es, c, t) }

  /** How many events of the column start in the interval. */
  function Starting(es: seq<Event>, c: Column, from: int, until: int): nat {
    if es == [] then 0
    else
      var e := es[|es| - 1];
      Starting(es[..|es| - 1], c, from, until) + if c != Available && IsFor(c, e) && OpenedIn(e, from, until) then 1 else 0
  }

  lemma ShareIsFor(e: Event, p: Period, from: int, until: int, c: Column)
    ensures Time(Share(e, p, from, until), c) == if IsFor(c, e) then Count(Within(p, e), from, until) else 0
    ensures Opened(Share(e, p, from, until), c) ==
            if c != Available && IsFor(c, e) && OpenedIn(e, from, until) then 1 else 0
  {
    hide Count;
  }

  lemma {:induction false} CountOfEither(p: Period, q: Period, r: Period, from: int, until: int)
    requires forall t :: r(t) == (p(t) || q(t)) && !(p(t) && q(t))
    ensures Count(r, from, until) == Count(p, from, until) + Count(q, from, until)
    decreases until - from
  {
    if from < until { CountOfEither(p, q, r, from, until - 1); }
  }

  lemma {:induction false} CountOfSame(p: Period, q: Period, from: int, until: int)
    requires forall t :: p(t) == q(t)
    ensures Count(p, from, until) == Count(q, from, until)
    decreases until - from
  {
    if from < until { CountOfSame(p, q, from, until - 1); }
  }

  lemma {:induction false} CountOfNone(p: Period, from: int, until: int)
    requires forall t :: !p(t)
    ensures Count(p, from, until) == 0
    decreases until - from
  {
    if from < until { CountOfNone(p, from, until - 1); }
  }

  lemma NeverInNothing(p: Period, c: Column, from: int, until: int)
    ensures Count(During(p, [], c), from, until) == 0
  {
    var q := During(p, [], c);
    forall t: int ensures !q(t) { assert !WasIn([], c, t); }
    CountOfNone(q, from, until);
  }

  /** For events that do not overlap, each column is the time of the period that the activity
      spent in its status, and the number of events that began it. */
  lemma {:induction false} ColumnsAreTimes(es: seq<Event>, p: Period, from: int, until: int, c: Column)
    requires Disjoint(es)
    ensures Time(Total(es, p, from, until), c) == Count(During(p, es, c), from, until)
    ensures Opened(Total(es, p, from, until), c) == Starting(es, c, from, until)
  {
    hide Count, Share, OpenedIn, IsFor;
    if es == [] {
      NeverInNothing(p, c, from, until);
      assert es == [];
    } else {
      var before, e := es[..|es| - 1], es[|es| - 1];
      assert forall i :: 0 <= i < |before| ==> before[i] == es[i];
      ColumnsAreTimes(before, p, from, until, c);
      ShareIsFor(e, p, from, until, c);
      OneMoreEvent(es, p, c);
      if IsFor(c, e) {
        CountOfEither(During(p, before, c), Within(p, e), During(p, es, c), from, until);
      } else {
        CountOfSame(During(p, before, c), During(p, es, c), from, until);
      }
    }
  }

  lemma OneMoreEvent(es: seq<Event>, p: Period, c: Column)
    requires es != [] && Disjoint(es)
    ensures var before, e := es[..|es| - 1], es[|es| - 1];
            forall t :: During(p, es, c)(t) == (During(p, before, c)(t) || (IsFor(c, e) && Within(p, e)(t)))
                        && !(During(p, before, c)(t) && Within(p, e)(t))
  {
    hide IsFor, Covers;
    var before, e := es[..|es| - 1], es[|es| - 1];
    forall t
      ensures WasIn(es, c, t) <==> WasIn(before, c, t) || (IsFor(c, e) && Covers(e, t))
      ensures WasIn(before, c, t) ==> !Covers(e, t)
    {
      assert forall i :: 0 <= i < |before| ==> before[i] == es[i];
      if WasIn(es, c, t) {
        var i :| 0 <= i < |es| && IsFor(c, es[i]) && Covers(es[i], t);
        if i < |before| { assert IsFor(c, before[i]) && Covers(before[i], t); }
      }
    }
  }

  /** Two days in a row count what one builder counts over both: durations and opened
      events alike. */
  lemma ShareSplits(e: Event, p: Period, from: int, mid: int, until: int)
    requires from <= mid <= until && (e.end == 0 || e.start <= e.end)
    ensures Share(e, p, from, until) == Plus(Share(e, p, from, mid), Share(e, p, mid, until))
  {
    hide Count;
    CountSplits(Within(p, e), from, mid, until);
  }

  /** The rows that a day selects: those that overlap it. */
  predicate Selected(e: Event, from: int, until: int) { e.start < until && (e.end == 0 || from <= e.end) }

  /** The rows that are left out would have added nothing. */
  lemma LeftOutAddsNothing(e: Event, p: Period, from: int, until: int)
    requires from <= until && !Selected(e, from, until)
    ensures Share(e, p, from, until) == ZERO
  {
    hide Count;
    ClippingCounts(e, p, from, until);
    NoSeconds(p, until);
  }

  lemma NoSeconds(p: Period, from: int)
    ensures Count(p, from, from) == 0
  {}

  // ------------------------------------------------------ activities and periods

  /** A row of finished events names its time period; an open event is counted for every
      period of its activity. */
  datatype Key = Key(ba: nat, period: nat)

  datatype Closed = Closed(key: Key, event: Event)

  datatype Open = Open(ba: nat, event: Event)

  /** The event base, and the time periods. */
  datatype Base = Base(closed: seq<Closed>, open: seq<Open>,
                       periods: map<nat, Period>, relations: map<nat, seq<nat>>)

  /** An event to count for an activity and a time period. */
  type Posting = Closed

  function PeriodsOf(b: Base, ba: nat): seq<nat> { if ba in b.relations then b.relations[ba] else [] }

  function ClosedPostings(b: Base, n: nat): seq<Posting>
    requires n <= |b.closed|
  {
    if n == 0 then []
    else ClosedPostings(b, n - 1) + if b.closed[n - 1].key.period in b.periods then [b.closed[n - 1]] else []
  }

  function PostingsOf(ba: nat, e: Event, periods: seq<nat>): seq<Posting> {
    if periods == [] then []
    else PostingsOf(ba, e, periods[..|periods| - 1]) + [Closed(Key(ba, periods[|periods| - 1]), e)]
  }

  function OpenPostings(b: Base, n: nat): seq<Posting>
    requires n <= |b.open|
  {
    if n == 0 then []
    else OpenPostings(b, n - 1) + PostingsOf(b.open[n - 1].ba, b.open[n - 1].event, PeriodsOf(b, b.open[n - 1].ba))
  }

  lemma NoOpenPostings(b: Base)
    ensures OpenPostings(b, 0) == []
  {}

  lemma OpenPostingsMore(b: Base, n: nat)
    requires n < |b.open|
    ensures OpenPostings(b, n + 1) ==
            OpenPostings(b, n) + PostingsOf(b.open[n].ba, b.open[n].event, PeriodsOf(b, b.open[n].ba))
  {}

  function Postings(b: Base): seq<Posting> { ClosedPostings(b, |b.closed|) + OpenPostings(b, |b.open|) }

  /** What is known of the base: finished events have an end, not before their start; open
      ones have none; every period an activity is related to is known. */
  ghost predicate IsBase(b: Base) {
    && (forall i :: 0 <= i < |b.closed| ==> b.closed[i].event.end != 0 && b.closed[i].event.start <= b.closed[i].event.end)
    && (forall i :: 0 <= i < |b.open| ==> b.open[i].event.end == 0)
    && (forall ba, i :: ba in b.relations && 0 <= i < |b.relations[ba]| ==> b.relations[ba][i] in b.periods)
  }

  lemma {:induction false} ClosedPostingsKnown(b: Base, n: nat)
    requires IsBase(b) && n <= |b.closed|
    ensures forall q :: q in ClosedPostings(b, n) ==>
              q.key.period in b.periods && q.event.end != 0 && q.event.start <= q.event.end
  {
    if n > 0 { ClosedPostingsKnown(b, n - 1); }
  }

  lemma {:induction false} PostingsOfKnown(b: Base, ba: nat, e: Event, periods: seq<nat>)
    requires forall i :: 0 <= i < |periods| ==> periods[i] in b.periods
    ensures forall q :: q in PostingsOf(ba, e, periods) ==> q.key.period in b.periods && q.event == e
  {
    if periods != [] { PostingsOfKnown(b, ba, e, periods[..|periods| - 1]); }
  }

  lemma {:induction false} OpenPostingsKnown(b: Base, n: nat)
    requires IsBase(b) && n <= |b.open|
    ensures forall q :: q in OpenPostings(b, n) ==> q.key.period in b.periods && q.event.end == 0
  {
    if n > 0 {
      OpenPostingsKnown(b, n - 1);
      PostingsOfKnown(b, b.open[n - 1].ba, b.open[n - 1].event, PeriodsOf(b, b.open[n - 1].ba));
    }
  }

  /** What is due to an activity and a period on [from, until). */
  function Due(postings: seq<Posting>, k: Key, p: Period, from: int, until: int): Tally {
    if postings == [] then ZERO
    else
      var q := postings[|postings| - 1];
      Plus(Due(postings[..|postings| - 1], k, p, from, until), if q.key == k then Share(q.event, p, from, until) else ZERO)
  }

  lemma {:induction false} DueSplits(postings: seq<Posting>, k: Key, p: Period, from: int, mid: int, until: int)
    requires from <= mid <= until
    requires forall i :: 0 <= i < |postings| ==> postings[i].event.end == 0 || postings[i].event.start <= postings[i].event.end
    ensures Due(postings, k, p, from, until) == Plus(Due(postings, k, p, from, mid), Due(postings, k, p, mid, until))
  {
    hide Share, Plus;
    PlusZero(ZERO);
    if postings != [] {
      var before, q := postings[..|postings| - 1], postings[|postings| - 1];
      DueSplits(before, k, p, from, mid, until);
      ShareSplits(q.event, p, from, mid, until);
      PlusSwaps(Due(before, k, p, from, mid), Due(before, k, p, mid, until),
                if q.key == k then Share(q.event, p, from, mid) else ZERO,
                if q.key == k then Share(q.event, p, mid, until) else ZERO);
    }
  }

  lemma {:induction false} NothingDue(postings: seq<Posting>, k: Key, p: Period, from: int)
    ensures Due(postings, k, p, from, from) == ZERO
  {
    hide Plus;
    PlusZero(ZERO);
    if postings != [] { NothingDue(postings[..|postings| - 1], k, p, from); }
  }

  /** The events counted for an activity and a period. */
  function EventsOf(postings: seq<Posting>, k: Key): seq<Event> {
    if postings == [] then []
    else EventsOf(postings[..|postings| - 1], k)
         + if postings[|postings| - 1].key == k then [postings[|postings| - 1].event] else []
  }

  lemma {:induction false} DueIsTotal(postings: seq<Posting>, k: Key, p: Period, from: int, until: int)
    ensures Due(postings, k, p, from, until) == Total(EventsOf(postings, k), p, from, until)
  {
    hide Share, Plus;
    if postings != [] {
      var before, q := postings[..|postings| - 1], postings[|postings| - 1];
      DueIsTotal(before, k, p, from, until);
      PlusZero(Due(before, k, p, from, until));
      assert EventsOf(before, k) + [] == EventsOf(before, k);
      assert (EventsOf(before, k) + [q.event])[..|EventsOf(before, k)|] == EventsOf(before, k);
    }
  }

  lemma DueMore(postings: seq<Posting>, q: Posting, k: Key, p: Period, from: int, until: int)
    ensures Due(postings + [q], k, p, from, until) ==
            Plus(Due(postings, k, p, from, until), if q.key == k then Share(q.event, p, from, until) else ZERO)
  {
    assert (postings + [q])[..|postings|] == postings;
  }

  // -------------------------------------------------------------- the day loop

  type Builders = map<Key, Builder>

  /** The builders are distinct, made for the day, and hold what is due of the postings
      handled so far; a key without a builder is due nothing. */
  ghost predicate Hold(bs: Builders, done: seq<Posting>, periods: map<nat, Period>, from: int, until: int)
    reads bs.Values
  {
    && (forall k :: k in bs ==> k.period in periods && bs[k].start == from && bs[k].end == until)
    && (forall k, l :: k in bs && l in bs && k != l ==> bs[k] != bs[l])
    && (forall k :: k in bs ==> bs[k].Counted() == Due(done, k, periods[k.period], from, until))
    && (forall k: Key :: k.period in periods && k !in bs ==> Due(done, k, periods[k.period], from, until) == ZERO)
  }

  lemma NoneHold(periods: map<nat, Period>, from: int, until: int)
    ensures Hold(map[], [], periods, from, until)
  {}

  /** Find the builder of a posting, or create it, and add the event. */
  method Post(bs: Builders, q: Posting, ghost done: seq<Posting>, periods: map<nat, Period>, from: int, until: int)
    returns (more: Builders)
    requires q.key.period in periods && from <= until && until - from < FAILED
    requires Hold(bs, done, periods, from, until)
    modifies bs.Values
    ensures Hold(more, done + [q], periods, from, until)
    ensures fresh(more.Values - bs.Values)
  {
    hide Due, Share, Plus;
    more := bs;
    if q.key !in more {
      var b := new Builder(until, from);
      assert b !in bs.Values;
      more := more[q.key := b];
    }
    assert more[q.key].Counted() == Due(done, q.key, periods[q.key.period], from, until);
    more[q.key].AddEvent(q.event, periods[q.key.period]);
    forall k | k in more ensures more[k].Counted() == Due(done + [q], k, periods[k.period], from, until) {
      DueMore(done, q, k, periods[k.period], from, until);
      PlusZero(Due(done, k, periods[k.period], from, until));
    }
    forall k: Key | k.period in periods && k !in more ensures Due(done + [q], k, periods[k.period], from, until) == ZERO {
      DueMore(done, q, k, periods[k.period], from, until);
      PlusZero(ZERO);
    }
  }

  /** A posting that the day does not select changes nothing. */
  lemma NotSelected(bs: Builders, q: Posting, done: seq<Posting>, periods: map<nat, Period>, from: int, until: int)
    requires Hold(bs, done, periods, from, until) && from <= until && !Selected(q.event, from, until)
    ensures Hold(bs, done + [q], periods, from, until)
  {
    hide Due, Share, Plus;
    forall k: Key | k.period in periods
      ensures Due(done + [q], k, periods[k.period], from, until) == Due(done, k, periods[k.period], from, until)
    {
      DueMore(done, q, k, periods[k.period], from, until);
      LeftOutAddsNothing(q.event, periods[k.period], from, until);
      PlusZero(Due(done, k, periods[k.period], from, until));
    }
  }

  /** The first query of a day: the finished events. */
  method PostClosed(b: Base, from: int, until: int) returns (bs: Builders)
    requires IsBase(b) && from <= until && until - from < FAILED
    ensures Hold(bs, ClosedPostings(b, |b.closed|), b.periods, from, until)
    ensures fresh(bs.Values)
  {
    hide Hold, Share, Due;
    bs := map[];
    NoneHold(b.periods, from, until);
    var i := 0;
    while i < |b.closed|
      invariant 0 <= i <= |b.closed| && fresh(bs.Values)
      invariant Hold(bs, ClosedPostings(b, i), b.periods, from, until)
    {
      var q := b.closed[i];
      if q.key.period in b.periods {
        if Selected(q.event, from, until) {
          bs := Post(bs, q, ClosedPostings(b, i), b.periods, from, until);
        } else {
          NotSelected(bs, q, ClosedPostings(b, i), b.periods, from, until);
        }
      } else {
        assert ClosedPostings(b, i + 1) == ClosedPostings(b, i);
      }
      i := i + 1;
    }
  }

  /** One open event, for every period of its activity. */
  method PostOpen(bs: Builders, b: Base, o: Open, ghost done: seq<Posting>, from: int, until: int) returns (more: Builders)
    requires IsBase(b) && from <= until && until - from < FAILED
    requires Hold(bs, done, b.periods, from, until)
    modifies bs.Values
    ensures Hold(more, done + PostingsOf(o.ba, o.event, PeriodsOf(b, o.ba)), b.periods, from, until)
    ensures fresh(more.Values - bs.Values)
  {
    hide Hold, Share, Due;
    more := bs;
    var periods := PeriodsOf(b, o.ba);
    assert done + [] == done;
    var i := 0;
    while i < |periods|
      invariant 0 <= i <= |periods| && fresh(more.Values - bs.Values)
      invariant Hold(more, done + PostingsOf(o.ba, o.event, periods[..i]), b.periods, from, until)
    {
      var q := Closed(Key(o.ba, periods[i]), o.event);
      assert periods[..i + 1][..i] == periods[..i];
      assert done + PostingsOf(o.ba, o.event, periods[..i + 1]) == done + PostingsOf(o.ba, o.event, periods[..i]) + [q];
      more := Post(more, q, done + PostingsOf(o.ba, o.event, periods[..i]), b.periods, from, until);
      i := i + 1;
    }
    assert periods[..i] == periods;
  }

  lemma {:induction false} OpenNotSelected(bs: Builders, o: Open, periods: seq<nat>, done: seq<Posting>,
                                           known: map<nat, Period>, from: int, until: int)
    requires Hold(bs, done, known, from, until) && from <= until && !Selected(o.event, from, until)
    ensures Hold(bs, done + PostingsOf(o.ba, o.event, periods), known, from, until)
  {
    hide Hold, Share, Due, Selected;
    if periods == [] {
      assert done + [] == done;
    } else {
      var before, q := periods[..|periods| - 1], Closed(Key(o.ba, periods[|periods| - 1]), o.event);
      OpenNotSelected(bs, o, before, done, known, from, until);
      NotSelected(bs, q, done + PostingsOf(o.ba, o.event, before), known, from, until);
      assert done + PostingsOf(o.ba, o.event, periods) == done + PostingsOf(o.ba, o.event, before) + [q];
    }
  }

  /** _build_daily_availabilities: the rows of a day, one for each activity and period with
      a builder; what has no row is due nothing. */
  method BuildDay(b: Base, from: int, until: int) returns (day: map<Key, Tally>)
    requires IsBase(b) && from <= until && until - from < FAILED
    ensures IsDay(day, b, from, until)
  {
    hide Hold, Share, Due, Selected, IsBase, PostingsOf, OpenPostings, ClosedPostings;
    var bs := PostClosed(b, from, until);
    ghost var closed := ClosedPostings(b, |b.closed|);
    NoOpenPostings(b);
    assert closed + [] == closed;
    var i := 0;
    while i < |b.open|
      invariant 0 <= i <= |b.open| && fresh(bs.Values)
      invariant Hold(bs, closed + OpenPostings(b, i), b.periods, from, until)
    {
      var o := b.open[i];
      ghost var periods := PeriodsOf(b, o.ba);
      OpenPostingsMore(b, i);
      assert closed + OpenPostings(b, i + 1) == closed + OpenPostings(b, i) + PostingsOf(o.ba, o.event, periods);
      if Selected(o.event, from, until) {
        bs := PostOpen(bs, b, o, closed + OpenPostings(b, i), from, until);
      } else {
        OpenNotSelected(bs, o, periods, closed + OpenPostings(b, i), b.periods, from, until);
      }
      i := i + 1;
    }
    day := Write(bs, Postings(b), b.periods, from, until);
  }

  /** _write_availability for every builder. */
  method Write(bs: Builders, ghost done: seq<Posting>, ghost periods: map<nat, Period>, ghost from: int, ghost until: int)
    returns (day: map<Key, Tally>)
    requires Hold(bs, done, periods, from, until)
    ensures forall k :: k in day ==> k.period in periods
    ensures forall k: Key :: k.period in periods ==>
              (if k in day then day[k] else ZERO) == Due(done, k, periods[k.period], from, until)
  {
    hide Due;
    day := map k | k in bs :: bs[k].Counted();
  }

  function RowOf(day: map<Key, Tally>, k: Key): Tally { if k in day then day[k] else ZERO }

  ghost predicate IsDay(day: map<Key, Tally>, b: Base, from: int, until: int) {
    forall k: Key :: k.period in b.periods ==> RowOf(day, k) == Due(Postings(b), k, b.periods[k.period], from, until)
  }

  /** The rows of an activity and period over all days written. */
  function SumOf(days: seq<map<Key, Tally>>, k: Key): Tally {
    if days == [] then ZERO else Plus(SumOf(days[..|days| - 1], k), RowOf(days[|days| - 1], k))
  }

  /** Each column of the rows of an activity has the seconds of the time period that the
      activity spent in its status, and the number of times it began; all columns together
      have no more seconds than the period, and exactly that many if and only if the events
      cover the period. */
  ghost predicate Accounted(days: seq<map<Key, Tally>>, b: Base, k: Key, from: int, until: int)
    requires k.period in b.periods
  {
    && Seconds(SumOf(days, k)) <= Count(b.periods[k.period], from, until)
    && (Seconds(SumOf(days, k)) == Count(b.periods[k.period], from, until) <==>
          forall t :: from <= t < until && b.periods[k.period](t) ==> IsCovered(EventsOf(Postings(b), k), t))
    && (forall c ::
          && Time(SumOf(days, k), c) == Count(During(b.periods[k.period], EventsOf(Postings(b), k), c), from, until)
          && Opened(SumOf(days, k), c) == Starting(EventsOf(Postings(b), k), c, from, until))
  }

  /** If the events of an activity do not overlap, the rows written for it over all the days
      are accounted for. */
  lemma RowsAreAccountedFor(b: Base, days: seq<map<Key, Tally>>, k: Key, from: int, until: int)
    requires from <= until && k.period in b.periods && Disjoint(EventsOf(Postings(b), k))
    requires SumOf(days, k) == Due(Postings(b), k, b.periods[k.period], from, until)
    ensures Accounted(days, b, k, from, until)
  {
    DueIsTotal(Postings(b), k, b.periods[k.period], from, until);
    DayIsAccountedFor(EventsOf(Postings(b), k), b.periods[k.period], from, until);
    forall c
      ensures Time(SumOf(days, k), c) == Count(During(b.periods[k.period], EventsOf(Postings(b), k), c), from, until)
      ensures Opened(SumOf(days, k), c) == Starting(EventsOf(Postings(b), k), c, from, until)
    {
      ColumnsAreTimes(EventsOf(Postings(b), k), b.periods[k.period], from, until, c);
    }
  }

  /** The loop of _build_availabilities: midnight after midnight until the last day. The
      rows written add up to what one builder would count from the first midnight to the
      one reached, whatever lengths the days have, and are accounted for there. */
  method BuildAvailabilities(b: Base, firstDay: int, lastDay: int, nextDay: int -> int)
    returns (days: seq<map<Key, Tally>>, reached: int)
    requires IsBase(b)
    requires forall t :: t < nextDay(t) < t + FAILED
    ensures firstDay <= reached && lastDay <= reached
    ensures reached == firstDay || exists day :: firstDay <= day < lastDay && reached == nextDay(day)
    ensures forall k: Key :: k.period in b.periods ==>
              SumOf(days, k) == Due(Postings(b), k, b.periods[k.period], firstDay, reached)
    ensures forall k: Key :: k.period in b.periods && Disjoint(EventsOf(Postings(b), k)) ==>
              Accounted(days, b, k, firstDay, reached)
  {
    hide Due, Disjoint, Accounted, Postings;
    days, reached := [], firstDay;
    forall k: Key | k.period in b.periods
      ensures Due(Postings(b), k, b.periods[k.period], firstDay, firstDay) == ZERO
    {
      NothingDue(Postings(b), k, b.periods[k.period], firstDay);
    }
    while reached < lastDay
      invariant firstDay <= reached
      invariant reached == firstDay || exists day :: firstDay <= day < lastDay && reached == nextDay(day)
      invariant forall k: Key :: k.period in b.periods ==>
                  SumOf(days, k) == Due(Postings(b), k, b.periods[k.period], firstDay, reached)
      decreases lastDay - reached
    {
      var next := nextDay(reached);
      var day := BuildDay(b, reached, next);
      DayAdds(b, days, day, firstDay, reached, next);
      days, reached := days + [day], next;
    }
    forall k: Key | k.period in b.periods && Disjoint(EventsOf(Postings(b), k))
      ensures Accounted(days, b, k, firstDay, reached)
    {
      RowsAreAccountedFor(b, days, k, firstDay, reached);
    }
  }

  lemma DayAdds(b: Base, days: seq<map<Key, Tally>>, day: map<Key, Tally>, from: int, mid: int, until: int)
    requires IsBase(b) && from <= mid <= until && IsDay(day, b, mid, until)
    requires forall k: Key :: k.period in b.periods ==> SumOf(days, k) == Due(Postings(b), k, b.periods[k.period], from, mid)
    ensures forall k: Key :: k.period in b.periods ==>
              SumOf(days + [day], k) == Due(Postings(b), k, b.periods[k.period], from, until)
  {
    hide Due, IsBase, Postings, Plus;
    PostingsAreEvents(b);
    forall k: Key | k.period in b.periods
      ensures SumOf(days + [day], k) == Due(Postings(b), k, b.periods[k.period], from, until)
    {
      assert (days + [day])[..|days|] == days;
      DueSplits(Postings(b), k, b.periods[k.period], from, mid, until);
    }
  }

  lemma PostingsAreEvents(b: Base)
    requires IsBase(b)
    ensures forall i :: 0 <= i < |Postings(b)| ==>
              Postings(b)[i].event.end == 0 || Postings(b)[i].event.start <= Postings(b)[i].event.end
  {
    hide IsBase;
    ClosedPostingsKnown(b, |b.closed|);
    OpenPostingsKnown(b, |b.open|);
    forall i | 0 <= i < |Postings(b)|
      ensures Postings(b)[i].event.end == 0 || Postings(b)[i].event.start <= Postings(b)[i].event.end
    {
      var q := Postings(b)[i];
      assert q in ClosedPostings(b, |b.closed|) || q in OpenPostings(b, |b.open|);
    }
  }
}

/** bam/src/kpi_service.cc and the initial events of bam/src/kpi.cc: the history of a
    service KPI, written as events that are opened and later closed. */
module KpiService {
  import opened Options

  /** A time of -1 or 0 is null. */
  type Time = t: int | -1 <= t witness -1

  predicate IsNull(t: int) { t == -1 || t == 0 }

  /** An event with a null end is still open. */
  datatype Event = Event(start: Time, end: Time, status: int, inDowntime: bool, impact: real)

  predicate IsOpen(e: Event) { IsNull(e.end) }

  /** The states an impact is configured for. */
  predicate IsKnown(state: int) { 0 <= state < 5 }

  // --------------------------------------------------------------- the history

  /** b may follow a: an event is closed as it was opened, after it started; the next one
      opens when the one before it was closed, and differs from it. */
  predicate Follows(a: Event, b: Event) {
    if IsOpen(a)
    then !IsOpen(b) && b == a.(end := b.end)
    else IsOpen(b) && b.start == a.end
         && (b.status != a.status || b.inDowntime != a.inDowntime || b.impact != a.impact)
  }

  /** A history without gaps, in which every closed event lasted. */
  ghost predicate Unbroken(log: seq<Event>) {
    && (forall i :: 0 <= i < |log| && !IsOpen(log[i]) ==> log[i].start < log[i].end)
    && (forall i :: 0 <= i < |log| - 1 ==> Follows(log[i], log[i + 1]))
  }

  predicate Covers(e: Event, t: int) { !IsOpen(e) && e.start <= t < e.end }

  /** How many closed events cover a time. */
  function Covering(log: seq<Event>, t: int): nat {
    if log == [] then 0 else Covering(log[..|log| - 1], t) + if Covers(log[|log| - 1], t) then 1 else 0
  }

  /** The time up to which the history is closed. */
  function ClosedUntil(log: seq<Event>): int
    requires log != []
  {
    var e := log[|log| - 1];
    if IsOpen(e) then e.start else e.end
  }

  /** Every time between the first start and the start of the open event is covered by
      exactly one closed event, and no other time is. */
  lemma {:induction false} CoveredOnce(log: seq<Event>, t: int)
    requires log != [] && Unbroken(log)
    ensures log[0].start <= ClosedUntil(log)
    ensures Covering(log, t) == if log[0].start <= t < ClosedUntil(log) then 1 else 0
  {
    var front, last := log[..|log| - 1], log[|log| - 1];
    if front == [] {
      assert Covering(front, t) == 0;
    } else {
      assert Unbroken(front) by {
        forall i | 0 <= i < |front| - 1 ensures Follows(front[i], front[i + 1]) {
          assert Follows(log[i], log[i + 1]);
        }
      }
      assert Follows(log[|log| - 2], log[|log| - 1]);
      CoveredOnce(front, t);
    }
  }

  /** What the KPI goes by when it is visited. */
  datatype Seen = Seen(lastCheck: Time, state: int, inDowntime: bool, nominal: real)

  /** The event opened for it. The impact is the nominal one in downtime too: for a KPI in
      downtime all of its impact is downtime impact. */
  function Opened(s: Seen): Event { Event(s.lastCheck, -1, s.state, s.inDowntime, s.nominal) }

  predicate Differs(e: Event, s: Seen) { s.inDowntime != e.inDowntime || s.state != e.status }

  /** What a visit writes: the first event, a closed event and the next one, or nothing. */
  function Next(event: Option<Event>, s: Seen): seq<Event> {
    match event
    case None => if IsNull(s.lastCheck) then [] else [Opened(s)]
    case Some(e) =>
      if s.lastCheck > e.start && Differs(e, s) then [e.(end := s.lastCheck), Opened(s)] else []
  }

  function Current(event: Option<Event>, s: Seen): Option<Event> {
    var w := Next(event, s);
    if w == [] then event else Some(w[|w| - 1])
  }

  /** The open event is the last one written, if any was. */
  ghost predicate EndsWith(log: seq<Event>, event: Option<Event>) {
    match event
    case None => log == []
    case Some(e) => log != [] && log[|log| - 1] == e && IsOpen(e) && 0 <= e.start
  }

  /** No visit breaks the history, even if the time of the check went back. */
  lemma VisitKeepsHistory(log: seq<Event>, event: Option<Event>, s: Seen)
    requires Unbroken(log) && EndsWith(log, event)
    ensures Unbroken(log + Next(event, s)) && EndsWith(log + Next(event, s), Current(event, s))
  {
    var w := Next(event, s);
    var all := log + w;
    assert forall i :: 0 <= i < |log| ==> all[i] == log[i];
    if |w| == 2 {
      assert Follows(log[|log| - 1], w[0]) && Follows(w[0], w[1]);
      assert all[|log|] == w[0] && all[|log| + 1] == w[1];
    }
  }

  /** After a visit the open event is the one seen, except when it differs and the check is
      not later than its start: that change waits for a later check. */
  lemma CurrentIff(event: Option<Event>, s: Seen)
    requires event.Some? || !IsNull(s.lastCheck)
    ensures Current(event, s).Some?
    ensures !Differs(Current(event, s).value, s)
            <==> !(event.Some? && Differs(event.value, s) && s.lastCheck <= event.value.start)
  {}

  // ------------------------------------------------------------------ the KPI

  class KpiService {
    const impacts: seq<real>
    var acknowledged: bool
    var downtimed: bool
    var lastCheck: Time
    var stateHard: int
    var stateSoft: int
    var event: Option<Event>
    var initialEvents: seq<Event>
    /** What was written to the visitor. */
    var written: seq<Event>

    /** The history with the initial events still to be written. */
    ghost function Log(): seq<Event>
      reads this`written, this`initialEvents
    {
      written + initialEvents
    }

    ghost predicate Valid()
      reads this`written, this`initialEvents, this`event
    {
      |impacts| == 5 && Unbroken(Log()) && EndsWith(Log(), event)
    }

    constructor (levels: seq<real>)
      requires |levels| == 5
      ensures Valid() && event == None && impacts == levels && IsNull(lastCheck) && !downtimed
      ensures stateHard == 0 && stateSoft == 0 && !acknowledged
    {
      impacts := levels;
      acknowledged, downtimed, lastCheck, stateHard, stateSoft := false, false, 0, 0, 0;
      event, initialEvents, written := None, [], [];
    }

    function SeenNow(): Seen
      requires |impacts| == 5 && IsKnown(stateHard)
      reads this
    {
      Seen(lastCheck, stateHard, downtimed, impacts[stateHard])
    }

    /** kpi::set_initial_event with the open event of the database. If the impact it was
        opened with is no longer the right one, it is closed now and opened again; its level
        of -1 says that none was saved. False where the state has no impact. */
    method KpiInitialEvent(e: Event, now: Time) returns (ok: bool)
      requires Valid() && event.None? && IsOpen(e) && 0 <= e.start
      modifies this`event, this`initialEvents
      ensures ok <==> 0 <= stateHard <= 4
      ensures event.Some?
      ensures ok ==>
                var level := if e.inDowntime && !downtimed then 0.0 else impacts[stateHard];
                var right := e.impact in {-1.0, level};
                && event == Some(e.(start := if right then e.start else now, impact := level))
                && (Valid() <==> right || e.start < now)
    {
      hide Unbroken;
      event := Some(e);
      if !IsKnown(stateHard) { return false; }
      var level := ImpactOf(downtimed, e);
      if IsOutdated(e, level) {
        initialEvents := initialEvents + [e.(end := now)];
        event := Some(e.(start := now));
      }
      // The event is shared with the list: its level changes in both.
      event := Some(event.value.(impact := level));
      initialEvents := initialEvents + [event.value];
      assert Log() == initialEvents;
      HistoryStarts(e, level, now, initialEvents);
      ok := true;
    }

    /** kpi_service::set_initial_event: an event that is there already is kept. */
    method SetInitialEvent(e: Event, now: Time) returns (ok: bool)
      requires Valid() && IsOpen(e) && 0 <= e.start
      modifies this`event, this`initialEvents, this`lastCheck, this`downtimed
      ensures ok <==> old(event).Some? || 0 <= stateHard <= 4
      ensures event.Some?
      ensures old(event).Some? ==> event == old(event) && initialEvents == old(initialEvents) && Valid()
      ensures old(event).None? && ok ==>
                var level := if e.inDowntime && !old(downtimed) then 0.0 else impacts[stateHard];
                var right := e.impact in {-1.0, level};
                && event == Some(e.(start := if right then e.start else now, impact := level))
                && (Valid() <==> right || e.start < now)
      ensures ok ==> lastCheck == event.value.start && downtimed == event.value.inDowntime
    {
      hide Unbroken;
      if event.None? {
        ok := KpiInitialEvent(e, now);
        if !ok { return; }
      }
      lastCheck := event.value.start;
      downtimed := event.value.inDowntime;
      ok := true;
    }

    /** The impact level of an event: in downtime it is the downtime impact, which is null
        unless the KPI itself is in downtime. */
    function ImpactOf(flag: bool, e: Event): real
      requires |impacts| == 5 && IsKnown(stateHard)
      reads this`stateHard
    {
      if e.inDowntime && !flag then 0.0 else impacts[stateHard]
    }

    method CommitInitialEvents()
      modifies this`written, this`initialEvents
      ensures written == old(Log()) && initialEvents == [] && Log() == old(Log())
    {
      if initialEvents == [] {
        assert written + initialEvents == written;
        return;
      }
      var i := 0;
      while i < |initialEvents|
        invariant 0 <= i <= |initialEvents| && initialEvents == old(initialEvents)
        invariant written == old(written) + initialEvents[..i]
      {
        written := written + [initialEvents[i]];
        i := i + 1;
      }
      initialEvents := [];
      assert written + [] == written;
    }

    /** What a visit with what is seen now makes of the event and the history. */
    twostate predicate Visited(visitor: bool, ok: bool)
      reads this
    {
      && |impacts| == 5
      && ok == (!visitor || (0 <= stateHard <= 4 && 0 <= stateSoft <= 4))
      && (visitor ==> initialEvents == [])
      && (visitor && ok ==>
            event == Current(old(event), SeenNow()) && written == old(Log()) + Next(old(event), SeenNow()))
      && (!visitor || !ok ==> event == old(event) && Log() == old(Log()))
    }

    /** visit; without a visitor it does nothing, and it stops where a state has no impact. */
    method Visit(visitor: bool) returns (ok: bool)
      requires Valid()
      modifies this`written, this`initialEvents, this`event
      ensures Valid() && Visited(visitor, ok)
    {
      hide Unbroken;
      ok := true;
      if !visitor { return; }
      CommitInitialEvents();
      if !IsKnown(stateHard) || !IsKnown(stateSoft) { return false; }
      VisitKeepsHistory(written, event, SeenNow());
      if event.None? {
        if !IsNull(lastCheck) {
          OpenNewEvent();
        } else {
          assert written + [] == written;
        }
      } else if lastCheck > event.value.start && (downtimed != event.value.inDowntime || stateHard != event.value.status) {
        event := Some(event.value.(end := lastCheck));
        var closed := event.value;
        written := written + [closed];
        event := None;
        OpenNewEvent();
        assert written == old(Log()) + [closed, Opened(SeenNow())];
      } else {
        assert written + [] == written;
      }
      assert written + [] == written;
    }

    method OpenNewEvent()
      requires |impacts| == 5 && IsKnown(stateHard)
      modifies this`written, this`event
      ensures event == Some(Opened(SeenNow())) && written == old(written) + [Opened(SeenNow())]
      ensures event.value.impact == ImpactOf(downtimed, event.value)
    {
      var e := Event(-1, -1, 3, false, 0.0);
      e := e.(impact := ImpactOf(downtimed, e));
      e := e.(inDowntime := downtimed);
      e := e.(start := lastCheck, status := stateHard);
      event := Some(e);
      written := written + [e];
    }

    /** service_update with a status: a check without a time keeps the one before it, or
        takes the time of the update. */
    method StatusUpdate(check: Time, update: Time, hard: int, soft: int, visitor: bool) returns (ok: bool)
      requires Valid()
      modifies this`lastCheck, this`stateHard, this`stateSoft, this`written, this`initialEvents, this`event
      ensures Valid() && stateHard == hard && stateSoft == soft
      ensures lastCheck == if !IsNull(check) then check else if IsNull(old(lastCheck)) then update else old(lastCheck)
      ensures Visited(visitor, ok)
    {
      if IsNull(check) {
        if IsNull(lastCheck) { lastCheck := update; }
      } else {
        lastCheck := check;
      }
      stateHard, stateSoft := hard, soft;
      ok := Visit(visitor);
    }

    /** service_update with an acknowledgement: it concerns no event. The flag tells that the
        acknowledgement stands, that is that its deletion time is null, only if that time is
        0; one that stands with -1 clears it, and one that was deleted sets it. */
    method AcknowledgementUpdate(deletion: Time, visitor: bool) returns (ok: bool)
      requires Valid()
      modifies this`acknowledged, this`written, this`initialEvents, this`event
      ensures Valid() && acknowledged == (deletion != -1)
      ensures (acknowledged <==> IsNull(deletion)) <==> deletion == 0
      ensures Visited(visitor, ok)
    {
      acknowledged := deletion != -1;
      ok := Visit(visitor);
    }

    /** service_update with a downtime. */
    method DowntimeUpdate(wasStarted: bool, actualEnd: Time, visitor: bool) returns (ok: bool)
      requires Valid()
      modifies this`downtimed, this`written, this`initialEvents, this`event
      ensures Valid() && downtimed == (wasStarted && IsNull(actualEnd))
      ensures Visited(visitor, ok)
    {
      downtimed := wasStarted && IsNull(actualEnd);
      ok := Visit(visitor);
    }
  }

  predicate IsOutdated(e: Event, level: real) { level != e.impact && e.impact != -1.0 }

  /** The history that starts with an initial event is unbroken exactly if the event is not
      closed, or closed after its start. */
  lemma HistoryStarts(e: Event, level: real, now: Time, log: seq<Event>)
    requires IsOpen(e) && 0 <= e.start
    requires log == if IsOutdated(e, level) then [e.(end := now), e.(start := now, impact := level)]
                    else [e.(impact := level)]
    ensures Unbroken(log) && EndsWith(log, Some(log[|log| - 1])) <==> !IsOutdated(e, level) || e.start < now
  {
    if IsOutdated(e, level) {
      assert log[0].start < log[0].end || IsOpen(log[0]) || e.start >= now;
      assert Unbroken(log) ==> Follows(log[0], log[1]);
    }
  }
}

/** neb/src/downtime_scheduler.cc: the queues of downtimes waiting for their start and for
    their end, and the downtimes written to the publisher when either comes. */
module DowntimeScheduler {

  /** The fields the scheduler reads or sets; a time of 0 or -1 is null. */
  datatype Downtime = Downtime(id: nat, start: int, end: int, actualStart: int, actualEnd: int, wasStarted: bool)

  predicate IsNull(t: int) { t == -1 || t == 0 }

  /** A default-constructed downtime, which std::map makes for an unknown key. */
  const MADE_UP := Downtime(0, -1, -1, -1, -1, false)

  /** A multimap of ids ordered by time; equal times stay in the order of insertion. */
  type Queue = seq<(int, nat)>

  function Insert(q: Queue, t: int, id: nat): Queue {
    if q == [] || t < q[0].0 then [(t, id)] + q else [q[0]] + Insert(q[1..], t, id)
  }

  function Without(q: Queue, id: nat): Queue {
    if q == [] then [] else (if q[0].1 == id then [] else [q[0]]) + Without(q[1..], id)
  }

  ghost predicate Sorted(q: Queue) {
    forall i, j :: 0 <= i < j < |q| ==> q[i].0 <= q[j].0
  }

  /** The times at which an id is queued. */
  function Times(q: Queue, id: nat): seq<int> {
    if q == [] then [] else (if q[0].1 == id then [q[0].0] else []) + Times(q[1..], id)
  }

  /** The downtimes written about an id. */
  function About(log: seq<Downtime>, id: nat): seq<Downtime> {
    if log == [] then []
    else About(log[..|log| - 1], id) + if log[|log| - 1].id == id then [log[|log| - 1]] else []
  }

  lemma {:induction false} InsertTimes(q: Queue, t: int, id: nat, x: nat)
    ensures x != id ==> Times(Insert(q, t, id), x) == Times(q, x)
    ensures |Times(Insert(q, t, id), id)| == |Times(q, id)| + 1
    ensures Times(q, id) == [] ==> Times(Insert(q, t, id), id) == [t]
  {
    var r := Insert(q, t, id);
    if q == [] || t < q[0].0 {
      assert r[0] == (t, id) && r[1..] == q;
    } else {
      assert r[0] == q[0] && r[1..] == Insert(q[1..], t, id);
      InsertTimes(q[1..], t, id, x);
    }
  }

  lemma {:induction false} InsertSorted(q: Queue, t: int, id: nat)
    requires Sorted(q)
    ensures Sorted(Insert(q, t, id))
    ensures Insert(q, t, id) != []
    ensures forall e :: e in Insert(q, t, id) <==> e in q || e == (t, id)
  {
    if q != [] && q[0].0 <= t {
      var r := Insert(q[1..], t, id);
      InsertSorted(q[1..], t, id);
      assert q == [q[0]] + q[1..];
      forall i | 0 <= i < |r| ensures q[0].0 <= r[i].0 {
        assert r[i] in q[1..] || r[i] == (t, id);
      }
    }
  }

  lemma {:induction false} WithoutTimes(q: Queue, id: nat, x: nat)
    ensures Times(Without(q, id), x) == if x == id then [] else Times(q, x)
  {
    if q != [] {
      WithoutTimes(q[1..], id, x);
      if q[0].1 != id {
        assert Without(q, id)[0] == q[0] && Without(q, id)[1..] == Without(q[1..], id);
      } else {
        assert Without(q, id) == Without(q[1..], id);
      }
    }
  }

  lemma TailSorted(q: Queue)
    requires Sorted(q) && q != []
    ensures Sorted(q[1..])
    ensures forall e :: e in q[1..] ==> e in q && q[0].0 <= e.0
  {
    assert q == [q[0]] + q[1..];
  }

  lemma FrontKeepsSorted(e: (int, nat), q: Queue)
    requires Sorted(q) && forall f :: f in q ==> e.0 <= f.0
    ensures Sorted([e] + q)
  {}

  lemma {:induction false} WithoutSorted(q: Queue, id: nat)
    requires Sorted(q)
    ensures Sorted(Without(q, id))
    ensures forall e :: e in Without(q, id) ==> e in q
  {
    hide Sorted;
    if q != [] {
      var r := Without(q[1..], id);
      TailSorted(q);
      WithoutSorted(q[1..], id);
      FrontKeepsSorted(q[0], r);
      assert Without(q, id) == if q[0].1 == id then r else [q[0]] + r;
    }
  }

  lemma {:induction false} QueuedTimes(q: Queue, id: nat)
    ensures (exists e :: e in q && e.1 == id) <==> Times(q, id) != []
    ensures forall t :: t in Times(q, id) <==> (t, id) in q
  {
    if q != [] {
      QueuedTimes(q[1..], id);
      assert q == [q[0]] + q[1..];
      assert Times(q, id) == (if q[0].1 == id then [q[0].0] else []) + Times(q[1..], id);
      if q[0].1 == id { assert q[0] in q; }
    }
  }

  lemma TakeFirst(q: Queue, id: nat)
    requires q != []
    ensures Times(q, id) == if q[0].1 == id then [q[0].0] + Times(q[1..], id) else Times(q[1..], id)
    ensures Sorted(q) ==> Sorted(q[1..])
    ensures Sorted(q) && Times(q, id) != [] ==> q[0].0 <= Times(q, id)[0]
  {
    QueuedTimes(q, id);
    if Times(q, id) != [] {
      assert Times(q, id)[0] in Times(q, id);
      assert (Times(q, id)[0], id) in q;
    }
  }

  // ---------------------------------------------------------------- the steps

  /** What the scheduler holds and has written, and the last time it was told. */
  datatype State = State(downtimes: map<nat, Downtime>, starts: Queue, ends: Queue,
                         written: seq<Downtime>, clock: int)

  const EMPTY := State(map[], [], [], [], 0)

  datatype Step =
    | Add(start: int, end: int, downtime: Downtime)
    | Remove(id: nat)
    | Look(now: int)                  // _process_downtimes reads the clock
    | StartFirst(now: int, at: int)   // one turn of its first loop, started at `at`
    | EndFirst(now: int, at: int)     // one turn of its second loop

  function Find(m: map<nat, Downtime>, id: nat): Downtime {
    if id in m then m[id] else MADE_UP
  }

  function Added(s: State, start: int, end: int, d: Downtime): State {
    if d.start >= d.end then s
    else s.(downtimes := s.downtimes[d.id := d],
            starts := if IsNull(d.actualStart) then Insert(s.starts, start, d.id) else s.starts,
            ends := if IsNull(d.actualEnd) then Insert(s.ends, end, d.id) else s.ends)
  }

  function Removed(s: State, id: nat): State {
    if id !in s.downtimes then s
    else s.(downtimes := s.downtimes - {id}, starts := Without(s.starts, id), ends := Without(s.ends, id))
  }

  function Started(s: State, at: int): State
    requires s.starts != []
  {
    var id := s.starts[0].1;
    var d := Find(s.downtimes, id).(actualStart := at, wasStarted := true);
    State(s.downtimes[id := d], s.starts[1..], s.ends, s.written + [d], at)
  }

  /** The ended downtime is erased under the id it carries. */
  function Ended(s: State, at: int): State
    requires s.ends != []
  {
    var id := s.ends[0].1;
    var d := Find(s.downtimes, id).(actualEnd := at);
    State(s.downtimes[id := d] - {d.id}, s.starts, s.ends[1..], s.written + [d], at)
  }

  /** Time does not go back, the first loop takes what is due, and the second loop follows
      when the first has nothing left to do. */
  predicate Possible(s: State, step: Step) {
    match step
    case Add(_, _, _) => true
    case Remove(_) => true
    case Look(now) => s.clock <= now && 0 < now
    case StartFirst(now, at) => s.starts != [] && s.starts[0].0 <= now <= at && s.clock <= at && 0 < at
    case EndFirst(now, at) =>
      && (s.starts != [] ==> now < s.starts[0].0)
      && s.ends != [] && s.ends[0].0 <= now <= at && s.clock <= at && 0 < at
  }

  function Do(s: State, step: Step): State
    requires Possible(s, step)
  {
    match step
    case Add(start, end, d) => Added(s, start, end, d)
    case Remove(id) => Removed(s, id)
    case Look(now) => s.(clock := now)
    case StartFirst(_, at) => Started(s, at)
    case EndFirst(_, at) => Ended(s, at)
  }

  predicate AllPossible(s: State, run: seq<Step>)
    decreases |run|
  {
    run == [] || (Possible(s, run[0]) && AllPossible(Do(s, run[0]), run[1..]))
  }

  function DoAll(s: State, run: seq<Step>): State
    requires AllPossible(s, run)
    decreases |run|
  {
    if run == [] then s else DoAll(Do(s, run[0]), run[1..])
  }

  lemma {:induction false} DoMore(s: State, run: seq<Step>, step: Step)
    requires AllPossible(s, run) && Possible(DoAll(s, run), step)
    ensures AllPossible(s, run + [step]) && DoAll(s, run + [step]) == Do(DoAll(s, run), step)
    decreases |run|
  {
    if run == [] {
      assert ([step])[1..] == [];
      assert run + [step] == [step];
    } else {
      assert (run + [step])[0] == run[0] && (run + [step])[1..] == run[1..] + [step];
      DoMore(Do(s, run[0]), run[1..], step);
    }
  }

  // ---------------------------------------------- what the queues refer to

  /** An id is queued at most once in each queue, and only if it is managed; if it waits for
      its start it waits for its end too, which is not earlier. */
  ghost predicate SoundFor(s: State, x: nat) {
    && |Times(s.starts, x)| <= 1
    && |Times(s.ends, x)| <= 1
    && (Times(s.starts, x) != [] ==> Times(s.ends, x) != [] && Times(s.starts, x)[0] <= Times(s.ends, x)[0])
    && (Times(s.ends, x) != [] ==> x in s.downtimes)
    && (x in s.downtimes ==> s.downtimes[x].id == x)
  }

  ghost predicate Sound(s: State) {
    Sorted(s.starts) && Sorted(s.ends) && forall x :: SoundFor(s, x)
  }

  /** What a caller of add_downtime has to see to. */
  predicate Fresh(s: State, start: int, end: int, d: Downtime) {
    && (IsNull(d.actualStart) ==> Times(s.starts, d.id) == [])
    && (IsNull(d.actualEnd) ==> Times(s.ends, d.id) == [])
    && (IsNull(d.actualStart) ==>
          if IsNull(d.actualEnd) then start <= end
          else Times(s.ends, d.id) != [] && start <= Times(s.ends, d.id)[0])
  }

  /** Adding keeps the queues sound exactly if the downtime is refused, or its id is not
      queued yet and its start is not after its end. */
  lemma AddKeepsSoundIff(s: State, start: int, end: int, d: Downtime)
    requires Sound(s)
    ensures Sound(Added(s, start, end, d)) <==> d.start >= d.end || Fresh(s, start, end, d)
  {
    hide Insert, Times, Sorted;
    var r := Added(s, start, end, d);
    if d.start < d.end {
      InsertSorted(s.starts, start, d.id);
      InsertSorted(s.ends, end, d.id);
      InsertTimes(s.starts, start, d.id, d.id);
      InsertTimes(s.ends, end, d.id, d.id);
      assert SoundFor(s, d.id);
      forall x | x != d.id ensures SoundFor(r, x) {
        InsertTimes(s.starts, start, d.id, x);
        InsertTimes(s.ends, end, d.id, x);
        assert SoundFor(s, x);
      }
      assert SoundFor(r, d.id) <==> Fresh(s, start, end, d);
    }
  }

  lemma RemoveKeepsSound(s: State, id: nat)
    requires Sound(s)
    ensures Sound(Removed(s, id))
  {
    hide Without, Times, Sorted;
    if id in s.downtimes {
      WithoutSorted(s.starts, id);
      WithoutSorted(s.ends, id);
      forall x ensures SoundFor(Removed(s, id), x) {
        WithoutTimes(s.starts, id, x);
        WithoutTimes(s.ends, id, x);
        assert SoundFor(s, x);
      }
    }
  }

  lemma StartKeepsSound(s: State, at: int)
    requires Sound(s) && s.starts != []
    ensures Sound(Started(s, at))
  {
    hide Times, Sorted;
    TakeFirst(s.starts, s.starts[0].1);
    forall x ensures SoundFor(Started(s, at), x) {
      TakeFirst(s.starts, x);
      assert SoundFor(s, x);
      assert SoundFor(s, s.starts[0].1);
    }
  }

  /** The first end to come is not the end of a downtime that waits for its start. */
  lemma FirstEndHasStarted(s: State, now: int)
    requires Sound(s) && s.ends != [] && s.ends[0].0 <= now
    requires s.starts != [] ==> now < s.starts[0].0
    ensures s.ends[0].1 in s.downtimes && Times(s.starts, s.ends[0].1) == []
  {
    var x := s.ends[0].1;
    assert SoundFor(s, x);
    TakeFirst(s.ends, x);
    if s.starts != [] { TakeFirst(s.starts, x); }
  }

  lemma EndKeepsSound(s: State, now: int, at: int)
    requires Sound(s) && s.ends != [] && s.ends[0].0 <= now
    requires s.starts != [] ==> now < s.starts[0].0
    ensures Sound(Ended(s, at))
  {
    FirstEndHasStarted(s, now);
    hide Times, Sorted;
    TakeFirst(s.ends, s.ends[0].1);
    forall x ensures SoundFor(Ended(s, at), x) {
      TakeFirst(s.ends, x);
      assert SoundFor(s, x);
      assert SoundFor(s, s.ends[0].1);
    }
  }

  /** No step but a careless add disturbs the queues. */
  lemma StepKeepsSound(s: State, step: Step)
    requires Sound(s) && Possible(s, step)
    requires step.Add? ==> Fresh(s, step.start, step.end, step.downtime)
    ensures Sound(Do(s, step))
  {
    hide Sorted, Times, Fresh, Started, Ended, Removed, Added;
    match step {
      case Add(start, end, d) => { AddKeepsSoundIff(s, start, end, d); }
      case Remove(id) => { RemoveKeepsSound(s, id); }
      case Look(now) => {
        forall x ensures SoundFor(Do(s, step), x) { assert SoundFor(s, x); }
      }
      case StartFirst(_, at) => { StartKeepsSound(s, at); }
      case EndFirst(now, at) => { EndKeepsSound(s, now, at); }
    }
  }

  /** A downtime scheduled twice is queued twice; after its first end the second one writes
      a downtime that nobody scheduled and leaves it among the managed ones. */
  lemma ScheduledTwice()
    ensures var d := Downtime(7, 10, 20, -1, -1, false);
            var s := Added(Added(EMPTY, 10, 20, d), 10, 20, d);
            var r := Ended(Ended(Started(Started(s, 30), 30), 30), 30);
            && r.written[3] == MADE_UP.(actualEnd := 30)
            && r.downtimes == map[7 := MADE_UP.(actualEnd := 30)]
  {
    var d := Downtime(7, 10, 20, -1, -1, false);
    var once := Added(EMPTY, 10, 20, d);
    assert once.starts == [(10, 7)] && once.ends == [(20, 7)];
    var twice := Added(once, 10, 20, d);
    assert Insert([], 10, 7) == [(10, 7)] && Insert([], 20, 7) == [(20, 7)];
    assert once.starts[1..] == [] && once.ends[1..] == [];
    assert twice.starts == [(10, 7), (10, 7)] && twice.ends == [(20, 7), (20, 7)];
    var r := Started(Started(twice, 30), 30);
    assert r.downtimes.Keys == {7} && r.downtimes[7].id == 7;
    var e := Ended(r, 30);
    assert e.downtimes == map[] && e.ends == [(20, 7)] && |e.written| == 3;
  }

  // ------------------------------------------------- what is written, and when

  /** A downtime as it was scheduled. */
  datatype Plan = Plan(start: int, end: int, downtime: Downtime)

  /** What was scheduled so far, and what was taken back. */
  datatype History = History(plans: map<nat, Plan>, removed: set<nat>)

  function Remember(h: History, step: Step): History {
    match step
    case Add(start, end, d) =>
      if d.start < d.end then h.(plans := h.plans[d.id := Plan(start, end, d)]) else h
    case Remove(id) => if id in h.plans then h.(removed := h.removed + {id}) else h
    case _ => h
  }

  /** A caller schedules each id once, with a start that is not after its end, and before
      it has ended. */
  predicate Careful(h: History, step: Step) {
    step.Add? && step.downtime.start < step.downtime.end ==>
      && step.downtime.id !in h.plans
      && step.start <= step.end && IsNull(step.downtime.actualEnd)
  }

  predicate AllCareful(h: History, run: seq<Step>)
    decreases |run|
  {
    run == [] || (Careful(h, run[0]) && AllCareful(Remember(h, run[0]), run[1..]))
  }

  function RememberAll(h: History, run: seq<Step>): History
    decreases |run|
  {
    if run == [] then h else RememberAll(Remember(h, run[0]), run[1..])
  }

  /** The downtime as it is while it runs: the one scheduled, started at a time that is not
      before its start. */
  ghost predicate IsRunning(d: Downtime, p: Plan) {
    if IsNull(p.downtime.actualStart)
    then p.start <= d.actualStart && !IsNull(d.actualStart) &&
         d == p.downtime.(actualStart := d.actualStart, wasStarted := true)
    else d == p.downtime
  }

  /** What was written about a downtime that runs: its start, unless it had started before
      it was scheduled. */
  ghost predicate ToldStart(told: seq<Downtime>, p: Plan) {
    if IsNull(p.downtime.actualStart) then |told| == 1 && IsRunning(told[0], p) else told == []
  }

  /** What was written about a downtime that is over: its start as above and then its end,
      not before either, with everything else unchanged. */
  ghost predicate ToldEnd(told: seq<Downtime>, p: Plan) {
    && told != []
    && ToldStart(told[..|told| - 1], p)
    && var d := told[|told| - 1];
       && p.end <= d.actualEnd && !IsNull(d.actualEnd)
       && IsRunning(d.(actualEnd := p.downtime.actualEnd), p)
       && (|told| == 2 ==> d.actualStart == told[0].actualStart <= d.actualEnd)
  }

  /** Where a scheduled downtime stands. */
  ghost predicate Follows(s: State, x: nat, p: Plan, removed: bool) {
    var told := About(s.written, x);
    if Times(s.starts, x) != [] then
      && !removed && IsNull(p.downtime.actualStart) && told == []
      && Times(s.starts, x) == [p.start] && Times(s.ends, x) == [p.end]
      && x in s.downtimes && s.downtimes[x] == p.downtime
    else if Times(s.ends, x) != [] then
      && !removed && ToldStart(told, p) && Times(s.ends, x) == [p.end]
      && x in s.downtimes && IsRunning(s.downtimes[x], p)
      && (told != [] ==> s.downtimes[x].actualStart == told[0].actualStart <= s.clock)
    else
      && x !in s.downtimes
      && (ToldEnd(told, p) || (removed && (told == [] || ToldStart(told, p))))
  }

  ghost predicate StandsFor(s: State, h: History, x: nat) {
    if x in h.plans
    then h.plans[x].downtime.id == x && IsNull(h.plans[x].downtime.actualEnd)
         && h.plans[x].start <= h.plans[x].end && Follows(s, x, h.plans[x], x in h.removed)
    else Times(s.starts, x) == [] && Times(s.ends, x) == [] && About(s.written, x) == []
         && x !in s.downtimes && x !in h.removed
  }

  ghost predicate Stands(s: State, h: History) {
    Sorted(s.starts) && Sorted(s.ends) && forall x :: StandsFor(s, h, x)
  }

  lemma StandingIsSound(s: State, h: History)
    requires Stands(s, h)
    ensures Sound(s)
  {
    forall x ensures SoundFor(s, x) { assert StandsFor(s, h, x); }
  }

  lemma AboutMore(log: seq<Downtime>, d: Downtime, x: nat)
    ensures About(log + [d], x) == if d.id == x then About(log, x) + [d] else About(log, x)
  {
    assert (log + [d])[..|log|] == log;
    assert About(log, x) + [] == About(log, x);
  }

  lemma AddStands(s: State, h: History, start: int, end: int, d: Downtime)
    requires Stands(s, h) && Careful(h, Add(start, end, d))
    ensures Stands(Added(s, start, end, d), Remember(h, Add(start, end, d)))
  {
    hide Times, Insert, Sorted, ToldStart, ToldEnd, IsRunning;
    var r, h' := Added(s, start, end, d), Remember(h, Add(start, end, d));
    if d.start < d.end {
      InsertSorted(s.starts, start, d.id);
      InsertSorted(s.ends, end, d.id);
      forall x ensures StandsFor(r, h', x) {
        InsertTimes(s.starts, start, d.id, x);
        InsertTimes(s.ends, end, d.id, x);
        assert StandsFor(s, h, x);
        if x == d.id && !IsNull(d.actualStart) { JustAdded(Plan(start, end, d)); }
      }
    }
  }

  lemma JustAdded(p: Plan)
    requires !IsNull(p.downtime.actualStart)
    ensures ToldStart([], p) && IsRunning(p.downtime, p)
  {}

  lemma RemoveStands(s: State, h: History, id: nat)
    requires Stands(s, h)
    ensures Stands(Removed(s, id), Remember(h, Remove(id)))
  {
    hide Times, Without, Sorted, ToldStart, ToldEnd, IsRunning;
    var r, h' := Removed(s, id), Remember(h, Remove(id));
    if id in s.downtimes {
      WithoutSorted(s.starts, id);
      WithoutSorted(s.ends, id);
    }
    forall x ensures StandsFor(r, h', x) {
      if id in s.downtimes {
        WithoutTimes(s.starts, id, x);
        WithoutTimes(s.ends, id, x);
      }
      assert StandsFor(s, h, x);
    }
  }

  lemma JustStarted(p: Plan, at: int)
    requires IsNull(p.downtime.actualStart) && p.start <= at && 0 < at
    ensures var d := p.downtime.(actualStart := at, wasStarted := true);
            ToldStart([] + [d], p) && IsRunning(d, p)
  {
    var d := p.downtime.(actualStart := at, wasStarted := true);
    assert [] + [d] == [d];
  }

  lemma StartStands(s: State, h: History, now: int, at: int)
    requires Stands(s, h) && Possible(s, StartFirst(now, at))
    ensures Stands(Started(s, at), h)
  {
    hide About, ToldStart, ToldEnd, IsRunning, Times, Sorted;
    var r := Started(s, at);
    var id := s.starts[0].1;
    TakeFirst(s.starts, id);
    assert StandsFor(s, h, id);
    JustStarted(h.plans[id], at);
    forall x ensures StandsFor(r, h, x) {
      TakeFirst(s.starts, x);
      AboutMore(s.written, r.downtimes[id], x);
      assert StandsFor(s, h, x);
    }
  }

  lemma RunningHasId(d: Downtime, p: Plan)
    requires IsRunning(d, p)
    ensures d.id == p.downtime.id
  {}

  lemma JustEnded(told: seq<Downtime>, p: Plan, d: Downtime, at: int)
    requires ToldStart(told, p) && IsRunning(d, p) && IsNull(p.downtime.actualEnd)
    requires told != [] ==> d.actualStart == told[0].actualStart <= at
    requires p.end <= at && 0 < at
    ensures ToldEnd(told + [d.(actualEnd := at)], p)
  {
    var all := told + [d.(actualEnd := at)];
    assert all[..|all| - 1] == told;
    assert all[|all| - 1].(actualEnd := p.downtime.actualEnd) == d.(actualEnd := p.downtime.actualEnd);
  }

  lemma EndStands(s: State, h: History, now: int, at: int)
    requires Stands(s, h) && Possible(s, EndFirst(now, at))
    ensures Stands(Ended(s, at), h)
  {
    hide About, Times, Sorted, Sound, ToldStart, ToldEnd, IsRunning;
    StandingIsSound(s, h);
    FirstEndHasStarted(s, now);
    var r := Ended(s, at);
    var id := s.ends[0].1;
    TakeFirst(s.ends, id);
    assert StandsFor(s, h, id);
    JustEnded(About(s.written, id), h.plans[id], s.downtimes[id], at);
    RunningHasId(s.downtimes[id], h.plans[id]);
    forall x ensures StandsFor(r, h, x) {
      TakeFirst(s.ends, x);
      AboutMore(s.written, s.downtimes[id].(actualEnd := at), x);
      assert StandsFor(s, h, x);
    }
  }

  lemma StepStands(s: State, h: History, step: Step)
    requires Stands(s, h) && Possible(s, step) && Careful(h, step)
    ensures Stands(Do(s, step), Remember(h, step))
  {
    hide Sorted, Times, Started, Ended, Removed, Added, ToldStart, ToldEnd, IsRunning, About;
    match step {
      case Add(start, end, d) => { AddStands(s, h, start, end, d); }
      case Remove(id) => { RemoveStands(s, h, id); }
      case Look(now) => {
        forall x ensures StandsFor(Do(s, step), h, x) { assert StandsFor(s, h, x); }
      }
      case StartFirst(now, at) => { StartStands(s, h, now, at); }
      case EndFirst(now, at) => { EndStands(s, h, now, at); }
    }
  }

  lemma {:induction false} RunStands(s: State, h: History, run: seq<Step>)
    requires Stands(s, h) && AllPossible(s, run) && AllCareful(h, run)
    ensures Stands(DoAll(s, run), RememberAll(h, run))
    decreases |run|
  {
    hide Stands, Do, Possible, Careful, Remember;
    if run != [] {
      StepStands(s, h, run[0]);
      RunStands(Do(s, run[0]), Remember(h, run[0]), run[1..]);
    }
  }

  /** Nothing was written about a downtime, or its start, or its start and then its end. */
  ghost predicate ToldInOrder(told: seq<Downtime>, p: Plan) {
    told == [] || ToldStart(told, p) || ToldEnd(told, p)
  }

  /** Over every run, each downtime is written at most once as started and then at most once
      as ended, neither early; both queues refer only to managed downtimes; and a downtime
      that was not removed either still waits for its end or has been written as ended. */
  lemma EachToldOnce(run: seq<Step>, x: nat)
    requires AllPossible(EMPTY, run) && AllCareful(History(map[], {}), run)
    ensures var s, h := DoAll(EMPTY, run), RememberAll(History(map[], {}), run);
            && (x in h.plans ==> ToldInOrder(About(s.written, x), h.plans[x]))
            && (x !in h.plans ==> About(s.written, x) == [])
            && (forall e :: e in s.starts + s.ends ==> e.1 in s.downtimes)
            && (x in h.plans && x !in h.removed ==>
                  ((h.plans[x].end, x) in s.ends || ToldEnd(About(s.written, x), h.plans[x])))
  {
    hide DoAll, RememberAll, AllPossible, AllCareful, About, Times, ToldStart, ToldEnd, IsRunning;
    var s, h := DoAll(EMPTY, run), RememberAll(History(map[], {}), run);
    NothingStands();
    RunStands(EMPTY, History(map[], {}), run);
    assert StandsFor(s, h, x);
    QueuedTimes(s.ends, x);
    if Times(s.ends, x) != [] && x in h.plans { assert h.plans[x].end in Times(s.ends, x); }
    forall e | e in s.starts + s.ends ensures e.1 in s.downtimes {
      QueuedTimes(s.starts, e.1);
      QueuedTimes(s.ends, e.1);
      assert StandsFor(s, h, e.1);
    }
  }

  /** Nothing is written about a downtime any more once it was removed. */
  lemma {:induction false} RemovedIsSilent(s: State, h: History, run: seq<Step>, x: nat)
    requires Stands(s, h) && AllPossible(s, run) && AllCareful(h, run) && x in h.removed
    ensures About(DoAll(s, run).written, x) == About(s.written, x)
    ensures var r := DoAll(s, run);
            x !in r.downtimes && (forall e :: e in r.starts + r.ends ==> e.1 != x)
    decreases |run|
  {
    hide Stands, Do, Possible, Careful, Remember;
    if run != [] {
      StepStands(s, h, run[0]);
      StepIsSilent(s, h, run[0], x);
      RemovedIsSilent(Do(s, run[0]), Remember(h, run[0]), run[1..], x);
    } else {
      RemovedIsGone(s, h, x);
    }
  }

  lemma RemovedIsGone(s: State, h: History, x: nat)
    requires Stands(s, h) && x in h.removed
    ensures x in h.plans && x !in s.downtimes && (forall e :: e in s.starts + s.ends ==> e.1 != x)
  {
    hide Times, About, ToldStart, ToldEnd, IsRunning;
    assert StandsFor(s, h, x);
    QueuedTimes(s.starts, x);
    QueuedTimes(s.ends, x);
  }

  lemma StepIsSilent(s: State, h: History, step: Step, x: nat)
    requires Stands(s, h) && Possible(s, step) && Careful(h, step) && x in h.removed
    ensures x in Remember(h, step).removed && About(Do(s, step).written, x) == About(s.written, x)
  {
    hide Stands, About;
    RemovedIsGone(s, h, x);
    if step.StartFirst? {
      var id := s.starts[0].1;
      assert s.starts[0] in s.starts + s.ends;
      HeldUnderItsId(s, h, id);
      AboutMore(s.written, Started(s, step.at).downtimes[id], x);
    } else if step.EndFirst? {
      var id := s.ends[0].1;
      assert s.ends[0] in s.starts + s.ends;
      HeldUnderItsId(s, h, id);
      AboutMore(s.written, Find(s.downtimes, id).(actualEnd := step.at), x);
    }
  }

  /** A downtime that is queued is managed under the id it carries. */
  lemma HeldUnderItsId(s: State, h: History, id: nat)
    requires Stands(s, h) && exists e :: e in s.starts + s.ends && e.1 == id
    ensures id in s.downtimes && s.downtimes[id].id == id
  {
    StandingIsSound(s, h);
    assert SoundFor(s, id);
    QueuedTimes(s.starts, id);
    QueuedTimes(s.ends, id);
  }

  /** Once no queued time has come, every downtime that should run by now was written as
      started and every one that should be over was written as ended. */
  lemma NothingDueIsLeft(s: State, h: History, now: int, x: nat)
    requires Stands(s, h) && Later(s.starts, now) && Later(s.ends, now)
    requires x in h.plans && x !in h.removed
    ensures h.plans[x].start <= now ==>
              ToldStart(About(s.written, x), h.plans[x]) || ToldEnd(About(s.written, x), h.plans[x])
    ensures h.plans[x].end <= now ==> ToldEnd(About(s.written, x), h.plans[x])
  {
    hide About, Times, ToldStart, IsRunning, Sorted;
    var p := h.plans[x];
    assert StandsFor(s, h, x);
    QueuedTimes(s.starts, x);
    QueuedTimes(s.ends, x);
    if Times(s.starts, x) != [] { assert p.start in Times(s.starts, x); }
    if Times(s.ends, x) != [] { assert p.end in Times(s.ends, x); }
  }

  lemma NothingStands()
    ensures Stands(EMPTY, History(map[], {}))
  {
    forall x ensures StandsFor(EMPTY, History(map[], {}), x) {}
  }

  // ------------------------------------------------------------- the scheduler

  /** One call of _process_downtimes. */
  predicate IsProcessing(now: int, run: seq<Step>) {
    && run != [] && run[0] == Look(now)
    && forall i :: 1 <= i < |run| ==> (run[i].StartFirst? || run[i].EndFirst?) && run[i].now == now
  }

  predicate Later(q: Queue, now: int) {
    forall i :: 0 <= i < |q| ==> now < q[i].0
  }

  class Scheduler {
    var downtimes: map<nat, Downtime>
    var starts: Queue
    var ends: Queue
    var written: seq<Downtime>
    var clock: int

    ghost function Contents(): State
      reads this
    {
      State(downtimes, starts, ends, written, clock)
    }

    constructor ()
      ensures Contents() == EMPTY
    {
      downtimes, starts, ends, written, clock := map[], [], [], [], 0;
    }

    /** time(nullptr). */
    method Time() returns (now: int)
      modifies this`clock
      ensures now == clock && old(clock) <= now && 0 < now
    {
      var passed: nat :| true;
      clock := (if clock > 0 then clock else 1) + passed;
      now := clock;
    }

    method AddDowntime(start: int, end: int, d: Downtime)
      modifies this
      ensures Contents() == Do(old(Contents()), Add(start, end, d))
    {
      if d.start >= d.end { return; }
      downtimes := downtimes[d.id := d];
      if IsNull(d.actualStart) { starts := Insert(starts, start, d.id); }
      if IsNull(d.actualEnd) { ends := Insert(ends, end, d.id); }
    }

    method RemoveDowntime(id: nat)
      modifies this
      ensures Contents() == Do(old(Contents()), Remove(id))
    {
      if id !in downtimes { return; }
      starts := Erase(starts, id);
      ends := Erase(ends, id);
      downtimes := downtimes - {id};
    }

    static method Erase(before: Queue, id: nat) returns (q: Queue)
      ensures q == Without(before, id)
    {
      q := before;
      var i := 0;
      while i < |q|
        invariant 0 <= i <= |q|
        invariant q[..i] + Without(q[i..], id) == Without(before, id)
        decreases |q| - i
      {
        if q[i].1 == id {
          assert (q[..i] + q[i + 1..])[i..] == q[i + 1..] && (q[..i] + q[i + 1..])[..i] == q[..i];
          q := q[..i] + q[i + 1..];
        } else {
          assert q[..i + 1] == q[..i] + [q[i]] && q[i..][1..] == q[i + 1..];
          i := i + 1;
        }
      }
      assert q[..i] == q && q[i..] == [];
    }

    method StartDowntime(id: nat)
      requires starts != [] && starts[0].1 == id
      modifies this`downtimes, this`written, this`clock
      ensures old(clock) <= clock && 0 < clock
      ensures Contents().(starts := starts[1..]) == Started(old(Contents()), clock)
    {
      var at := Time();
      var d := Find(downtimes, id).(actualStart := at, wasStarted := true);
      downtimes := downtimes[id := d];
      written := written + [d];
    }

    method EndDowntime(id: nat)
      requires ends != [] && ends[0].1 == id
      modifies this`downtimes, this`written, this`clock
      ensures old(clock) <= clock && 0 < clock
      ensures id in downtimes && downtimes[id] == Find(old(downtimes), id).(actualEnd := clock)
      ensures downtimes == old(downtimes)[id := downtimes[id]] && written == old(written) + [downtimes[id]]
    {
      var at := Time();
      var d := Find(downtimes, id).(actualEnd := at);
      downtimes := downtimes[id := d];
      written := written + [d];
    }

    /** _process_downtimes: the state after it is the one after that many turns of both
        loops, and nothing that is due is left in either queue. */
    method ProcessDowntimes() returns (now: int, ghost run: seq<Step>)
      requires Sorted(starts) && Sorted(ends)
      modifies this
      ensures IsProcessing(now, run) && AllPossible(old(Contents()), run)
      ensures Contents() == DoAll(old(Contents()), run)
      ensures Later(starts, now) && Later(ends, now)
    {
      hide AllPossible, DoAll;
      ghost var before := Contents();
      now := Time();
      run := [Look(now)];
      LookOnly(before, now);
      while starts != []
        invariant Sorted(starts) && Sorted(ends) && now <= clock
        invariant IsProcessing(now, run) && AllPossible(before, run) && Contents() == DoAll(before, run)
        invariant forall step :: step in run ==> !step.EndFirst?
        decreases |starts|
      {
        if starts[0].0 > now { break; }
        ghost var s := Contents();
        StartDowntime(starts[0].1);
        starts := starts[1..];
        DoMore(before, run, StartFirst(now, clock));
        run := run + [StartFirst(now, clock)];
      }
      while ends != []
        invariant Sorted(starts) && Sorted(ends) && now <= clock
        invariant starts != [] ==> now < starts[0].0
        invariant IsProcessing(now, run) && AllPossible(before, run) && Contents() == DoAll(before, run)
        decreases |ends|
      {
        if ends[0].0 > now { break; }
        ghost var s := Contents();
        var id := ends[0].1;
        EndDowntime(id);
        downtimes := downtimes - {downtimes[id].id};
        ends := ends[1..];
        assert Contents() == Ended(s, clock);
        DoMore(before, run, EndFirst(now, clock));
        run := run + [EndFirst(now, clock)];
      }
    }
  }

  lemma LookOnly(s: State, now: int)
    requires s.clock <= now && 0 < now
    ensures AllPossible(s, [Look(now)]) && DoAll(s, [Look(now)]) == s.(clock := now)
  {
    assert AllPossible(Do(s, Look(now)), []) && [Look(now)][1..] == [];
  }
}

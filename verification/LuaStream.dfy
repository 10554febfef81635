/** lua/src/stream.cc and lua/src/luabinding.cc: the broker thread hands events to a thread
    that runs the Lua script, and learns through a counter how many it may forget. The two
    threads are modelled as interleaved steps, one for each access to shared data. */
module LuaStream {

  type Event = nat

  /** How the script deals with an event: the filter may fail or reject it, `write` may
      fail, keep it, or acknowledge everything so far. */
  datatype Verdict = FilterFailed | FilteredOut | WriteFailed | Kept | Acknowledged

  /** The binding: events not acknowledged yet, and all the events it was given. */
  datatype Binding = Binding(total: nat, seen: seq<Event>)

  function Written(b: Binding, e: Event, v: Verdict): (r: (Binding, nat))
    ensures r.0.seen == b.seen + [e]
    ensures r.0.total + r.1 == b.total + 1
  {
    var total := b.total + 1;
    if v == Acknowledged then (Binding(0, b.seen + [e]), total) else (Binding(total, b.seen + [e]), 0)
  }

  function Flushed(b: Binding, acknowledge: bool): (r: (Binding, nat))
    ensures r.0.seen == b.seen && r.0.total + r.1 == b.total
  {
    if acknowledge then (b.(total := 0), b.total) else (b, 0)
  }

  /** The object behind it: luabinding::write and luabinding::flush. Its methods are what the
      steps Handle and WorkerFlush below do to the binding. */
  class LuaBinding {
    var total: nat
    ghost var seen: seq<Event>
    const hasFlush: bool

    constructor (hasFlush: bool)
      ensures this.hasFlush == hasFlush && total == 0 && seen == []
    {
      this.hasFlush := hasFlush;
      total, seen := 0, [];
    }

    method Write(e: Event, filter: bool, verdict: Verdict) returns (retval: nat)
      requires !filter ==> !verdict.FilterFailed? && !verdict.FilteredOut?
      modifies this
      ensures (Binding(total, seen), retval) == Written(Binding(old(total), old(seen)), e, verdict)
    {
      seen := seen + [e];
      retval := 0;
      total := total + 1;
      if filter && (verdict == FilterFailed || verdict == FilteredOut) { return; }
      if verdict == WriteFailed { return; }
      if verdict == Acknowledged {
        retval := total;
        total := 0;
      }
    }

    /** failed: the script's flush raised an error or did not return a boolean. */
    method Flush(failed: bool, acknowledge: bool) returns (retval: nat)
      modifies this
      ensures (Binding(total, seen), retval) ==
              Flushed(Binding(old(total), old(seen)), hasFlush && !failed && acknowledge)
    {
      retval := 0;
      if !hasFlush || failed { return; }
      if acknowledge {
        retval := total;
        total := 0;
      }
    }
  }

  // --------------------------------------------------------------- protocol

  /** Where the broker thread is in stream::write or stream::flush. */
  datatype Producer = Outside | BeforeLoad | BeforeSubtract(retval: int)

  /** Where the script thread is in its loop; `res` waits to be added to the counter. */
  datatype Worker = AtTop | AfterFlush(res: nat) | AtSwap | AtHandle | AfterWrite(res: nat) | Exited

  datatype State = State(
    written: seq<Event>,     // all events the broker ever wrote
    exposed: seq<Event>,     // _exposed_events
    local: seq<Event>,       // the worker's events
    eventsSize: int,         // _events_size
    binding: Binding,
    acks: int,               // _acks_count
    returned: int,           // acknowledgements the broker was given
    flush: bool, exit: bool,
    producer: Producer, worker: Worker)

  datatype Step =
    | Push(e: Event)              // write: the event is exposed
    | AskFlush                    // flush: the flag is set
    | Load                        // retval = _acks_count
    | Subtract                    // _acks_count -= retval; return retval
    | Quit                        // the destructor sets _exit
    | WorkerFlush(ack: bool)      // the flag was seen: lb->flush()
    | WorkerSkipFlush
    | AddFlushed                  // _acks_count += res; _flush = false
    | Swap                        // queues are swapped if the worker's is empty
    | Handle(v: Verdict)          // an event is popped and given to lb->write()
    | AddWritten                  // _acks_count += res
    | Wait                        // nothing to do: sleep
    | Leave                       // nothing to do and _exit is set

  predicate Enabled(s: State, step: Step) {
    match step
    case Push(_) => s.producer.Outside?
    case AskFlush => s.producer.Outside?
    case Load => s.producer.BeforeLoad?
    case Subtract => s.producer.BeforeSubtract?
    case Quit => s.producer.Outside?
    case WorkerFlush(_) => s.worker.AtTop? && s.flush
    case WorkerSkipFlush => s.worker.AtTop?
    case AddFlushed => s.worker.AfterFlush?
    case Swap => s.worker.AtSwap?
    case Handle(_) => s.worker.AtHandle? && s.local != []
    case AddWritten => s.worker.AfterWrite?
    case Wait => s.worker.AtHandle? && s.local == [] && !s.exit
    case Leave => s.worker.AtHandle? && s.local == [] && s.exit
  }

  function Apply(s: State, step: Step): State
    requires Enabled(s, step)
  {
    match step
    case Push(e) => s.(written := s.written + [e], exposed := s.exposed + [e], producer := BeforeLoad)
    case AskFlush => s.(flush := true, producer := BeforeLoad)
    case Load => s.(producer := BeforeSubtract(s.acks))
    case Subtract =>
      s.(acks := s.acks - s.producer.retval, returned := s.returned + s.producer.retval, producer := Outside)
    case Quit => s.(exit := true)
    case WorkerFlush(ack) =>
      var r := Flushed(s.binding, ack);
      s.(binding := r.0, worker := AfterFlush(r.1))
    case WorkerSkipFlush => s.(worker := AtSwap)
    case AddFlushed => s.(acks := s.acks + s.worker.res, flush := false, worker := AtSwap)
    case Swap =>
      if s.local == [] then
        s.(exposed := [], local := s.exposed, eventsSize := |s.exposed|, worker := AtHandle)
      else s.(worker := AtHandle)
    case Handle(v) =>
      var r := Written(s.binding, s.local[0], v);
      s.(local := s.local[1..], eventsSize := s.eventsSize - 1, binding := r.0, worker := AfterWrite(r.1))
    case AddWritten => s.(acks := s.acks + s.worker.res, worker := AtTop)
    case Wait => s.(worker := AtTop)
    case Leave => s.(worker := Exited)
  }

  predicate Init(s: State) {
    s == State([], [], [], 0, Binding(0, []), 0, 0, false, false, Outside, AtTop)
  }

  /** Acknowledgements on their way from the script to the counter. */
  function InFlight(s: State): nat {
    if s.worker.AfterFlush? || s.worker.AfterWrite? then s.worker.res else 0
  }

  predicate Inv(s: State) {
    // events reach the script in the order they were written, and none is lost on the way
    && s.written == s.binding.seen + s.local + s.exposed
    // every event the script was given is acknowledged once, or will be
    && |s.binding.seen| == s.binding.total + InFlight(s) + s.acks + s.returned
    && s.acks >= 0
    && (s.producer.BeforeSubtract? ==> s.producer.retval <= s.acks)
    && s.eventsSize == |s.local|
  }

  /** The steps of the broker thread. */
  lemma ProducerKeeps(s: State, step: Step)
    requires Inv(s) && Enabled(s, step)
    requires step.Push? || step.AskFlush? || step.Load? || step.Subtract? || step.Quit?
    ensures Inv(Apply(s, step))
  {
    hide Written, Flushed;
    if step.Push? {
      assert s.written + [step.e] == s.binding.seen + s.local + (s.exposed + [step.e]);
    }
  }

  lemma FlushKeeps(s: State, ack: bool)
    requires Inv(s) && Enabled(s, WorkerFlush(ack))
    ensures Inv(Apply(s, WorkerFlush(ack)))
  {
    hide Flushed;
  }

  lemma SwapKeeps(s: State)
    requires Inv(s) && Enabled(s, Swap)
    ensures Inv(Apply(s, Swap))
  {
    if s.local == [] { assert s.binding.seen + s.local + s.exposed == s.binding.seen + s.exposed + []; }
  }

  lemma HandleKeeps(s: State, v: Verdict)
    requires Inv(s) && Enabled(s, Handle(v))
    ensures Inv(Apply(s, Handle(v)))
  {
    hide Written;
    var s' := Apply(s, Handle(v));
    assert s.local == [s.local[0]] + s.local[1..];
    assert s.binding.seen + s.local + s.exposed == s'.binding.seen + s'.local + s'.exposed;
  }

  /** The other steps of the script thread. */
  lemma WorkerKeeps(s: State, step: Step)
    requires Inv(s) && Enabled(s, step)
    requires step.WorkerSkipFlush? || step.AddFlushed? || step.AddWritten? || step.Wait? || step.Leave?
    ensures Inv(Apply(s, step))
  {
    hide Written, Flushed;
  }

  lemma StepKeeps(s: State, step: Step)
    requires Inv(s) && Enabled(s, step)
    ensures Inv(Apply(s, step))
  {
    hide Inv, Enabled, Apply;
    if step.Push? || step.AskFlush? || step.Load? || step.Subtract? || step.Quit? {
      ProducerKeeps(s, step);
    } else if step.WorkerFlush? {
      FlushKeeps(s, step.ack);
    } else if step.Swap? {
      SwapKeeps(s);
    } else if step.Handle? {
      HandleKeeps(s, step.v);
    } else {
      WorkerKeeps(s, step);
    }
  }

  ghost predicate Reaches(s: State, steps: seq<Step>, s': State)
    decreases |steps|
  {
    if steps == [] then s' == s
    else Enabled(s, steps[0]) && Reaches(Apply(s, steps[0]), steps[1..], s')
  }

  lemma {:induction false} RunKeeps(s: State, steps: seq<Step>, s': State)
    requires Inv(s) && Reaches(s, steps, s')
    ensures Inv(s')
    decreases |steps|
  {
    hide Inv, Apply, Enabled;
    if steps != [] {
      StepKeeps(s, steps[0]);
      RunKeeps(Apply(s, steps[0]), steps[1..], s');
    }
  }

  /** In every interleaving: what was written is in one place or another, counted once;
      the counter is never negative, and no more is taken off it than it holds; the script
      was given a prefix of what was written, and nothing it was not given yet has been
      acknowledged. */
  lemma NothingLostNorEarly(init: State, steps: seq<Step>, s: State)
    requires Init(init) && Reaches(init, steps, s)
    ensures |s.written| == |s.exposed| + |s.local| + s.binding.total + InFlight(s) + s.acks + s.returned
    ensures s.acks >= 0 && (s.producer.BeforeSubtract? ==> s.producer.retval <= s.acks)
    ensures s.binding.seen <= s.written
    ensures s.returned <= |s.binding.seen|
    ensures s.eventsSize == |s.local|
  {
    hide Reaches, Apply, Enabled, Inv, Init;
    InitHolds(init);
    RunKeeps(init, steps, s);
    InvMeans(s);
  }

  lemma InitHolds(s: State)
    requires Init(s)
    ensures Inv(s)
  {}

  lemma InvMeans(s: State)
    requires Inv(s)
    ensures |s.written| == |s.exposed| + |s.local| + s.binding.total + InFlight(s) + s.acks + s.returned
    ensures s.acks >= 0 && (s.producer.BeforeSubtract? ==> s.producer.retval <= s.acks)
    ensures s.binding.seen <= s.written
    ensures s.returned <= |s.binding.seen|
    ensures s.eventsSize == |s.local|
  {
    assert s.written == s.binding.seen + (s.local + s.exposed);
  }

  // ---------------------------------------------- what a run amounts to

  /** What happened in a run: events given to the script, how many of them had been given
      when the script last acknowledged, flushes asked for and flushes of the script, and
      calls of the broker and their returns. */
  datatype Tally = Tally(given: nat, acknowledged: nat, asked: nat, flushes: nat, calls: nat, answers: nat)

  const NOTHING := Tally(0, 0, 0, 0, 0, 0)

  function Counted(t: Tally, step: Step): Tally {
    match step
    case Push(_) => t.(calls := t.calls + 1)
    case AskFlush => t.(calls := t.calls + 1, asked := t.asked + 1)
    case Subtract => t.(answers := t.answers + 1)
    case WorkerFlush(ack) => t.(flushes := t.flushes + 1, acknowledged := if ack then t.given else t.acknowledged)
    case Handle(v) => t.(given := t.given + 1, acknowledged := if v == Acknowledged then t.given + 1 else t.acknowledged)
    case _ => t
  }

  function CountedAll(t: Tally, steps: seq<Step>): Tally
    decreases |steps|
  {
    if steps == [] then t else CountedAll(Counted(t, steps[0]), steps[1..])
  }

  /** The state agrees with what happened. */
  predicate Agrees(s: State, t: Tally) {
    && |s.binding.seen| == t.given
    && s.binding.total + t.acknowledged == t.given
    && t.flushes + (if s.flush && !s.worker.AfterFlush? then 1 else 0) <= t.asked
    && (s.worker.AfterFlush? ==> t.flushes <= t.asked)
    && t.calls == t.answers + (if s.producer.Outside? then 0 else 1)
    && (s.worker.Exited? ==> s.exit && s.local == [])
  }

  lemma StepAgrees(s: State, step: Step, t: Tally)
    requires Inv(s) && Enabled(s, step) && Agrees(s, t)
    ensures Agrees(Apply(s, step), Counted(t, step))
  {}

  lemma {:induction false} RunAgrees(s: State, steps: seq<Step>, s': State, t: Tally)
    requires Inv(s) && Agrees(s, t) && Reaches(s, steps, s')
    ensures Agrees(s', CountedAll(t, steps))
    decreases |steps|
  {
    hide Inv, Apply, Enabled, Agrees, Counted;
    if steps != [] {
      StepKeeps(s, steps[0]);
      StepAgrees(s, steps[0], t);
      RunAgrees(Apply(s, steps[0]), steps[1..], s', Counted(t, steps[0]));
    }
  }

  /** In every interleaving: exactly the events given to the script up to its last
      acknowledgement are acknowledged to the broker or on their way to it; the script is
      flushed no more often than asked; every call of the broker returns before the next
      one; and the script thread leaves only when told to, with no event in hand. */
  lemma AcknowledgedExactly(init: State, steps: seq<Step>, s: State)
    requires Init(init) && Reaches(init, steps, s)
    ensures var t := CountedAll(NOTHING, steps);
            && InFlight(s) + s.acks + s.returned == t.acknowledged <= t.given == |s.binding.seen|
            && t.flushes <= t.asked
            && t.answers <= t.calls <= t.answers + 1
            && (s.worker.Exited? ==> s.exit && s.local == [])
  {
    hide Reaches, Apply, Enabled, Inv, Init, CountedAll;
    InitHolds(init);
    InitAgrees(init);
    RunKeeps(init, steps, s);
    RunAgrees(init, steps, s, NOTHING);
    NothingLostNorEarly(init, steps, s);
    SeenAre(s);
  }

  lemma InitAgrees(s: State)
    requires Init(s)
    ensures Agrees(s, NOTHING) && !s.flush && !s.exit
  {}

  lemma SeenAre(s: State)
    requires Inv(s)
    ensures |s.binding.seen| == s.binding.total + InFlight(s) + s.acks + s.returned
  {}

  /** Neither thread is ever stuck: each has a step to take, the script thread until it has
      left. */
  lemma NeverStuck(s: State, e: Event, ack: bool, v: Verdict)
    ensures Enabled(s, Push(e)) || Enabled(s, Load) || Enabled(s, Subtract)
    ensures Enabled(s, AskFlush) <==> Enabled(s, Push(e))
    ensures !s.worker.Exited? ==>
              exists step :: step in {WorkerSkipFlush, AddFlushed, Swap, Handle(v), AddWritten, Wait, Leave} && Enabled(s, step)
    ensures s.worker.AtTop? && s.flush ==> Enabled(s, WorkerFlush(ack))
  {
    var step := match s.worker
      case AtTop => WorkerSkipFlush
      case AfterFlush(_) => AddFlushed
      case AtSwap => Swap
      case AtHandle => if s.local != [] then Handle(v) else if s.exit then Leave else Wait
      case AfterWrite(_) => AddWritten
      case Exited => Wait;
    assert !s.worker.Exited? ==> Enabled(s, step);
  }

  /** A flush that is asked for while the script is flushing is forgotten: the flag is
      cleared afterwards. */
  lemma RequestIsLost(s: State)
    requires s.worker.AfterFlush? && s.producer.Outside?
    ensures Enabled(s, AskFlush) && Enabled(Apply(s, AskFlush), AddFlushed)
    ensures !Apply(Apply(s, AskFlush), AddFlushed).flush
  {}
}

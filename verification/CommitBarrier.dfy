/** core/src/mysql.cc and core/src/mysql_connection.cc: the commit barrier. `commit` puts
    a commit task on the queue of every connection and waits for a promise; the connection
    that brings the shared counter to zero sets it. The protocol is modelled as steps, for
    any number of connections, of concurrent commits and of other tasks. */
module CommitBarrier {

  datatype Task = Query(id: nat) | Commit(barrier: nat)

  /** A connection: `_tasks_list`, the list its thread swapped out, what it has run, and what
      the server said to each. */
  datatype Conn = Conn(queue: seq<Task>, local: seq<Task>, done: seq<Task>, outcomes: seq<bool>,
                       tasksCount: int, needCommit: bool)

  /** A call of mysql::commit on connections lo up to hi (all of them, or one): the next
      connection to push to, the shared counter, how often the promise was set, and how
      many tasks each connection had been given when the call began. */
  datatype Barrier = Barrier(lo: nat, hi: nat, next: nat, counter: int, sets: nat, returned: bool, marks: seq<nat>)

  datatype State = State(conns: seq<Conn>, barriers: map<nat, Barrier>)

  datatype Step =
    | Begin(b: nat, lo: nat, hi: nat)   // the counter is set to the number of connections
    | PushCommit(b: nat)                // one turn of the loop over the connections
    | Return(b: nat)                    // future.get() returned
    | PushQuery(c: nat, id: nat)        // any thread gives a connection a task
    | Take(c: nat)                      // _run swaps the two lists
    | Run(c: nat, ok: bool)             // _run processes a task, which the server may refuse
    | Idle(c: nat)                      // _run finds nothing to do

  /** All the tasks a connection was ever given, in order. */
  function Given(c: Conn): seq<Task> { c.done + c.local + c.queue }

  function Push(c: Conn, t: Task): Conn { c.(queue := c.queue + [t], tasksCount := c.tasksCount + 1) }

  function Marks(conns: seq<Conn>): seq<nat> { seq(|conns|, i requires 0 <= i < |conns| => |Given(conns[i])|) }

  predicate Enabled(s: State, step: Step) {
    match step
    case Begin(b, lo, hi) => b !in s.barriers && lo <= hi <= |s.conns| && ((lo == 0 && hi == |s.conns|) || hi == lo + 1)
    case PushCommit(b) => b in s.barriers && s.barriers[b].next < s.barriers[b].hi <= |s.conns|
    case Return(b) =>
      b in s.barriers && s.barriers[b].next == s.barriers[b].hi && s.barriers[b].sets > 0 && !s.barriers[b].returned
    case PushQuery(c, _) => c < |s.conns|
    case Take(c) => c < |s.conns| && s.conns[c].local == [] && s.conns[c].queue != []
    case Run(c, _) => c < |s.conns| && s.conns[c].local != []
    case Idle(c) => c < |s.conns| && s.conns[c].local == [] && s.conns[c].queue == []
  }

  /** The two branches of _commit: both decrement the counter, and the one that reaches
      zero sets the promise. */
  function Decrement(b: Barrier): Barrier {
    b.(counter := b.counter - 1, sets := b.sets + if b.counter - 1 == 0 then 1 else 0)
  }

  /** A connection after its next task: a query leaves something to commit unless it
      failed, and a commit leaves something to commit if it failed. */
  function Ran(c: Conn, ok: bool): Conn
    requires c.local != []
  {
    var t := c.local[0];
    c.(local := c.local[1..], done := c.done + [t], outcomes := c.outcomes + [ok], tasksCount := c.tasksCount - 1,
       needCommit := if t.Query? then c.needCommit || ok else c.needCommit && !ok)
  }

  function Apply(s: State, step: Step): State
    requires Enabled(s, step)
  {
    match step
    case Begin(b, lo, hi) => s.(barriers := s.barriers[b := Barrier(lo, hi, lo, hi - lo, 0, false, Marks(s.conns))])
    case PushCommit(b) =>
      var bar := s.barriers[b];
      State(s.conns[bar.next := Push(s.conns[bar.next], Commit(b))], s.barriers[b := bar.(next := bar.next + 1)])
    case Return(b) => s.(barriers := s.barriers[b := s.barriers[b].(returned := true)])
    case PushQuery(c, id) => s.(conns := s.conns[c := Push(s.conns[c], Query(id))])
    case Take(c) => s.(conns := s.conns[c := s.conns[c].(queue := [], local := s.conns[c].queue)])
    case Run(c, ok) =>
      var t := s.conns[c].local[0];
      State(s.conns[c := Ran(s.conns[c], ok)],
            if t.Commit? && t.barrier in s.barriers then s.barriers[t.barrier := Decrement(s.barriers[t.barrier])]
            else s.barriers)
    case Idle(c) => s.(conns := s.conns[c := s.conns[c].(tasksCount := 0)])
  }

  predicate Init(s: State) {
    s.barriers == map[] && forall c :: 0 <= c < |s.conns| ==> s.conns[c] == Conn([], [], [], [], 0, false)
  }

  // --------------------------------------------------------------- invariant

  /** The connections that were, or will be, given the commit of b and have not run it. */
  function Waiting(s: State, b: nat): set<nat>
    requires b in s.barriers
  {
    set c: nat | s.barriers[b].lo <= c < s.barriers[b].hi && c < |s.conns| && Commit(b) !in s.conns[c].done
  }

  /** How the tasks of connection c and barrier b stand to each other. */
  ghost predicate Placed(conn: Conn, c: nat, b: nat, bar: Barrier) {
    && multiset(Given(conn))[Commit(b)] == (if bar.lo <= c < bar.next then 1 else 0)
    && c < |bar.marks| && bar.marks[c] <= |Given(conn)|
    && Commit(b) !in Given(conn)[..bar.marks[c]]
  }

  ghost predicate ConnInv(s: State, c: nat)
    requires c < |s.conns|
  {
    && s.conns[c].tasksCount == |s.conns[c].local| + |s.conns[c].queue|
    && (forall b :: Commit(b) in Given(s.conns[c]) ==> b in s.barriers)
    && (forall b :: b in s.barriers ==> Placed(s.conns[c], c, b, s.barriers[b]))
  }

  ghost predicate BarrierInv(s: State, b: nat)
    requires b in s.barriers
  {
    var bar := s.barriers[b];
    && bar.lo <= bar.next <= bar.hi <= |s.conns|
    && bar.counter == |Waiting(s, b)|
    && bar.sets == (if bar.counter == 0 && bar.lo < bar.hi then 1 else 0)
    && (bar.returned ==> bar.next == bar.hi && bar.sets == 1)
  }

  ghost predicate Inv(s: State) {
    && (forall c :: 0 <= c < |s.conns| ==> ConnInv(s, c))
    && (forall b :: b in s.barriers ==> BarrierInv(s, b))
  }

  lemma InitHolds(s: State)
    requires Init(s)
    ensures Inv(s)
  {}

  /** Giving a connection another task moves only what that task is about. */
  lemma PlacedAfterPush(conn: Conn, t: Task, c: nat, b: nat, bar: Barrier)
    requires Placed(conn, c, b, bar)
    requires t == Commit(b) ==> bar.lo <= c == bar.next
    ensures var bar' := if t == Commit(b) then bar.(next := bar.next + 1) else bar;
            Placed(Push(conn, t), c, b, bar')
  {
    assert Given(Push(conn, t)) == Given(conn) + [t];
    assert Given(Push(conn, t))[..bar.marks[c]] == Given(conn)[..bar.marks[c]];
  }

  lemma PushHolds(s: State, c: nat, id: nat)
    requires Inv(s) && c < |s.conns|
    ensures Inv(Apply(s, PushQuery(c, id)))
  {
    var s' := Apply(s, PushQuery(c, id));
    forall i | 0 <= i < |s.conns| ensures ConnInv(s', i) {
      assert ConnInv(s, i);
      if i == c {
        assert Given(s'.conns[c]) == Given(s.conns[c]) + [Query(id)];
        forall b | b in s.barriers ensures Placed(s'.conns[i], i, b, s.barriers[b]) {
          PlacedAfterPush(s.conns[c], Query(id), c, b, s.barriers[b]);
        }
      }
    }
    forall b | b in s.barriers ensures BarrierInv(s', b) { assert Waiting(s', b) == Waiting(s, b); }
  }

  lemma PushCommitKeepsConns(s: State, b: nat)
    requires Inv(s) && Enabled(s, PushCommit(b))
    ensures forall i :: 0 <= i < |s.conns| ==> ConnInv(Apply(s, PushCommit(b)), i)
  {
    hide Placed;
    var s' := Apply(s, PushCommit(b));
    var c := s.barriers[b].next;
    assert BarrierInv(s, b);
    assert Given(s'.conns[c]) == Given(s.conns[c]) + [Commit(b)];
    forall i | 0 <= i < |s.conns| ensures ConnInv(s', i) {
      assert ConnInv(s, i);
      forall b' | b' in s'.barriers ensures Placed(s'.conns[i], i, b', s'.barriers[b']) {
        if i == c {
          PlacedAfterPush(s.conns[c], Commit(b), c, b', s.barriers[b']);
        } else {
          PlacedElsewhere(s.conns[i], i, b', s.barriers[b'], s'.barriers[b']);
        }
      }
    }
  }

  lemma PlacedElsewhere(conn: Conn, c: nat, b: nat, bar: Barrier, bar': Barrier)
    requires Placed(conn, c, b, bar)
    requires bar' == bar || (bar' == bar.(next := bar.next + 1) && c != bar.next)
    ensures Placed(conn, c, b, bar')
  {}

  lemma PushCommitHolds(s: State, b: nat)
    requires Inv(s) && Enabled(s, PushCommit(b))
    ensures Inv(Apply(s, PushCommit(b)))
  {
    var s' := Apply(s, PushCommit(b));
    PushCommitKeepsConns(s, b);
    forall b' | b' in s'.barriers ensures BarrierInv(s', b') {
      assert BarrierInv(s, b');
      assert Waiting(s', b') == Waiting(s, b');
    }
  }

  lemma NewBarrierWaits(s: State, b: nat, lo: nat, hi: nat)
    requires Inv(s) && Enabled(s, Begin(b, lo, hi))
    ensures Waiting(Apply(s, Begin(b, lo, hi)), b) == Interval(lo, hi)
  {
    forall c: nat | c < |s.conns| ensures Commit(b) !in s.conns[c].done {
      assert ConnInv(s, c);
      assert Commit(b) !in Given(s.conns[c]);
    }
  }

  lemma BeginKeepsConn(s: State, b: nat, lo: nat, hi: nat, c: nat)
    requires Inv(s) && Enabled(s, Begin(b, lo, hi)) && c < |s.conns|
    ensures ConnInv(Apply(s, Begin(b, lo, hi)), c)
  {
    hide Waiting, BarrierInv;
    assert ConnInv(s, c);
    assert Commit(b) !in Given(s.conns[c]);
    assert Given(s.conns[c])[..|Given(s.conns[c])|] == Given(s.conns[c]);
  }

  lemma BeginHolds(s: State, b: nat, lo: nat, hi: nat)
    requires Inv(s) && Enabled(s, Begin(b, lo, hi))
    ensures Inv(Apply(s, Begin(b, lo, hi)))
  {
    hide Waiting, ConnInv, Placed, Given;
    var s' := Apply(s, Begin(b, lo, hi));
    forall c: nat | c < |s.conns| ensures ConnInv(s', c) { BeginKeepsConn(s, b, lo, hi, c); }
    NewBarrierWaits(s, b, lo, hi);
    forall b' | b' in s'.barriers ensures BarrierInv(s', b') {
      if b' != b {
        assert BarrierInv(s, b');
        SameWaiting(s, s', b');
      }
    }
  }

  lemma SameWaiting(s: State, s': State, b: nat)
    requires b in s.barriers && b in s'.barriers && s'.conns == s.conns
    requires s'.barriers[b].lo == s.barriers[b].lo && s'.barriers[b].hi == s.barriers[b].hi
    ensures Waiting(s', b) == Waiting(s, b)
  {}

  function Interval(lo: nat, hi: nat): (r: set<nat>)
    requires lo <= hi
    ensures |r| == hi - lo && forall c :: c in r <==> lo <= c < hi
    decreases hi - lo
  {
    if lo == hi then {} else Interval(lo, hi - 1) + {hi - 1}
  }

  lemma ReturnHolds(s: State, b: nat)
    requires Inv(s) && Enabled(s, Return(b))
    ensures Inv(Apply(s, Return(b)))
  {
    var s' := Apply(s, Return(b));
    forall c | 0 <= c < |s.conns| ensures ConnInv(s', c) { assert ConnInv(s, c); }
    forall b' | b' in s'.barriers ensures BarrierInv(s', b') {
      assert BarrierInv(s, b');
      assert Waiting(s', b') == Waiting(s, b');
    }
  }

  lemma TakeHolds(s: State, c: nat)
    requires Inv(s) && Enabled(s, Take(c))
    ensures Inv(Apply(s, Take(c)))
  {
    var s' := Apply(s, Take(c));
    assert Given(s'.conns[c]) == Given(s.conns[c]);
    forall i | 0 <= i < |s.conns| ensures ConnInv(s', i) { assert ConnInv(s, i); }
    forall b | b in s.barriers ensures BarrierInv(s', b) { assert Waiting(s', b) == Waiting(s, b); }
  }

  lemma IdleHolds(s: State, c: nat)
    requires Inv(s) && Enabled(s, Idle(c))
    ensures Inv(Apply(s, Idle(c)))
  {
    assert ConnInv(s, c);
    assert Apply(s, Idle(c)).conns == s.conns;
  }

  /** A commit task that is run was never run before, and its connection is one its
      barrier waits for. */
  lemma RunFirstTime(s: State, c: nat)
    requires Inv(s) && c < |s.conns| && s.conns[c].local != [] && s.conns[c].local[0].Commit?
    ensures var b := s.conns[c].local[0].barrier;
            b in s.barriers && c in Waiting(s, b) && s.barriers[b].lo < s.barriers[b].hi
  {
    var conn := s.conns[c];
    var t := conn.local[0];
    assert ConnInv(s, c);
    assert Given(conn) == conn.done + ([t] + conn.local[1..] + conn.queue);
    assert t in Given(conn);
    assert Placed(conn, c, t.barrier, s.barriers[t.barrier]);
    assert multiset(Given(conn))[t] == multiset(conn.done)[t] + 1 + multiset(conn.local[1..] + conn.queue)[t];
    assert BarrierInv(s, t.barrier);
  }

  lemma PlacedSame(conn: Conn, conn': Conn, c: nat, b: nat, bar: Barrier, bar': Barrier)
    requires Placed(conn, c, b, bar) && Given(conn') == Given(conn)
    requires bar'.lo == bar.lo && bar'.next == bar.next && bar'.marks == bar.marks
    ensures Placed(conn', c, b, bar')
  {}

  lemma RanGiven(conn: Conn, ok: bool)
    requires conn.local != []
    ensures Given(Ran(conn, ok)) == Given(conn)
  {
    assert conn.local == [conn.local[0]] + conn.local[1..];
  }

  lemma RunKeepsConns(s: State, c: nat, ok: bool)
    requires Inv(s) && Enabled(s, Run(c, ok))
    ensures forall i :: 0 <= i < |s.conns| ==> ConnInv(Apply(s, Run(c, ok)), i)
  {
    hide Given, Placed, BarrierInv;
    var s' := Apply(s, Run(c, ok));
    RanGiven(s.conns[c], ok);
    forall i | 0 <= i < |s.conns| ensures ConnInv(s', i) {
      assert ConnInv(s, i);
      forall b | b in s'.barriers ensures Placed(s'.conns[i], i, b, s'.barriers[b]) {
        PlacedSame(s.conns[i], s'.conns[i], i, b, s.barriers[b], s'.barriers[b]);
      }
    }
  }

  lemma WaitingAfterRun(s: State, c: nat, ok: bool, b: nat)
    requires Inv(s) && Enabled(s, Run(c, ok)) && b in s.barriers
    ensures b in Apply(s, Run(c, ok)).barriers
    ensures Waiting(Apply(s, Run(c, ok)), b) ==
            if s.conns[c].local[0] == Commit(b) then Waiting(s, b) - {c} else Waiting(s, b)
  {
    hide Inv, ConnInv, BarrierInv;
    var s' := Apply(s, Run(c, ok));
    assert s'.conns[c].done == s.conns[c].done + [s.conns[c].local[0]];
  }

  lemma RunHolds(s: State, c: nat, ok: bool)
    requires Inv(s) && Enabled(s, Run(c, ok))
    ensures Inv(Apply(s, Run(c, ok)))
  {
    hide ConnInv, Waiting, Ran;
    var s' := Apply(s, Run(c, ok));
    var t := s.conns[c].local[0];
    RunKeepsConns(s, c, ok);
    if t.Commit? { RunFirstTime(s, c); }
    forall b | b in s'.barriers ensures BarrierInv(s', b) {
      assert BarrierInv(s, b);
      WaitingAfterRun(s, c, ok, b);
    }
  }

  /** Every step of every thread keeps the invariant. */
  lemma StepHolds(s: State, step: Step)
    requires Inv(s) && Enabled(s, step)
    ensures Inv(Apply(s, step))
  {
    hide Inv, Apply;
    match step
    case Begin(b, lo, hi) => BeginHolds(s, b, lo, hi);
    case PushCommit(b) => PushCommitHolds(s, b);
    case Return(b) => ReturnHolds(s, b);
    case PushQuery(c, id) => PushHolds(s, c, id);
    case Take(c) => TakeHolds(s, c);
    case Run(c, ok) => RunHolds(s, c, ok);
    case Idle(c) => IdleHolds(s, c);
  }

  // ------------------------------------------------------------------- runs

  /** s' is reached from s by these steps. */
  ghost predicate Reaches(s: State, steps: seq<Step>, s': State)
    decreases |steps|
  {
    if steps == [] then s' == s
    else Enabled(s, steps[0]) && Reaches(Apply(s, steps[0]), steps[1..], s')
  }

  lemma {:induction false} RunHoldsAll(s: State, steps: seq<Step>, s': State)
    requires Inv(s) && Reaches(s, steps, s')
    ensures Inv(s')
    decreases |steps|
  {
    hide Inv, Enabled, Apply;
    if steps != [] {
      StepHolds(s, steps[0]);
      RunHoldsAll(Apply(s, steps[0]), steps[1..], s');
    }
  }

  /** A barrier keeps its connections and its marks, a connection keeps the tasks it was
      given, and a commit that has returned has returned. */
  lemma StepKeeps(s: State, step: Step, b: nat)
    requires Inv(s) && Enabled(s, step) && b in s.barriers
    ensures var s' := Apply(s, step);
            && b in s'.barriers && |s'.conns| == |s.conns|
            && s'.barriers[b].lo == s.barriers[b].lo && s'.barriers[b].hi == s.barriers[b].hi
            && s'.barriers[b].marks == s.barriers[b].marks
            && (s.barriers[b].returned ==> s'.barriers[b].returned)
            && forall c :: 0 <= c < |s.conns| ==> Given(s.conns[c]) <= Given(s'.conns[c])
  {
    hide Inv, ConnInv, BarrierInv;
    var s' := Apply(s, step);
    match step
    case PushCommit(b') =>
      var c := s.barriers[b'].next;
      assert Given(Push(s.conns[c], Commit(b'))) == Given(s.conns[c]) + [Commit(b')];
    case PushQuery(c, id) => assert Given(Push(s.conns[c], Query(id))) == Given(s.conns[c]) + [Query(id)];
    case Take(c) => assert Given(s'.conns[c]) == Given(s.conns[c]);
    case Run(c, ok) => RanGiven(s.conns[c], ok);
    case Idle(c) => assert Given(s'.conns[c]) == Given(s.conns[c]);
    case _ =>
  }

  /** Connection c has run everything it had been given when the call b began, and more. */
  predicate PassedMark(s: State, b: nat, c: nat)
    requires b in s.barriers
  {
    c < |s.conns| && c < |s.barriers[b].marks| && s.barriers[b].marks[c] < |s.conns[c].done|
  }

  /** In every interleaving: the promise of a commit is set at most once, and exactly when
      the last of its connections has run the commit task; a commit that returned finds
      all that its connections had been given before it began run; and no connection will
      touch its counter any more. */
  lemma CommitIsBarrier(init: State, steps: seq<Step>, s: State, b: nat)
    requires Init(init) && Reaches(init, steps, s) && b in s.barriers
    ensures s.barriers[b].sets == if s.barriers[b].lo < s.barriers[b].hi && Waiting(s, b) == {} then 1 else 0
    ensures s.barriers[b].returned ==>
              forall c: nat :: s.barriers[b].lo <= c < s.barriers[b].hi ==> PassedMark(s, b, c)
    ensures s.barriers[b].returned ==>
              forall c :: 0 <= c < |s.conns| ==> Commit(b) !in s.conns[c].local + s.conns[c].queue
  {
    InitHolds(init);
    RunHoldsAll(init, steps, s);
    var bar := s.barriers[b];
    assert BarrierInv(s, b);
    if bar.returned {
      forall c: nat | c < |s.conns| ensures Commit(b) !in s.conns[c].local + s.conns[c].queue {
        ReturnedCommit(s, b, c);
      }
      forall c: nat | bar.lo <= c < bar.hi
        ensures PassedMark(s, b, c)
      {
        ReturnedCommit(s, b, c);
      }
    }
  }

  lemma ReturnedCommit(s: State, b: nat, c: nat)
    requires Inv(s) && b in s.barriers && s.barriers[b].returned && c < |s.conns|
    ensures Commit(b) !in s.conns[c].local + s.conns[c].queue
    ensures s.barriers[b].lo <= c < s.barriers[b].hi ==> PassedMark(s, b, c)
  {
    var bar, conn := s.barriers[b], s.conns[c];
    assert BarrierInv(s, b) && Waiting(s, b) == {};
    assert ConnInv(s, c) && Placed(conn, c, b, bar);
    assert Given(conn) == conn.done + (conn.local + conn.queue);
    if bar.lo <= c < bar.hi {
      assert c !in Waiting(s, b);
      var i :| 0 <= i < |conn.done| && conn.done[i] == Commit(b);
      assert Given(conn)[i] == Commit(b);
      forall j | 0 <= j < bar.marks[c] ensures Given(conn)[j] != Commit(b) {
        assert Given(conn)[..bar.marks[c]][j] == Given(conn)[j];
      }
    }
    assert multiset(Given(conn)) == multiset(conn.done) + multiset(conn.local + conn.queue);
    assert multiset(conn.local + conn.queue)[Commit(b)] == 0;
  }

  lemma {:induction false} RunKeeps(s: State, steps: seq<Step>, s': State, b: nat)
    requires Inv(s) && Reaches(s, steps, s') && b in s.barriers
    ensures Inv(s') && b in s'.barriers && |s'.conns| == |s.conns|
    ensures s'.barriers[b].lo == s.barriers[b].lo && s'.barriers[b].hi == s.barriers[b].hi
    ensures s'.barriers[b].marks == s.barriers[b].marks
    ensures forall c :: 0 <= c < |s.conns| ==> Given(s.conns[c]) <= Given(s'.conns[c])
    decreases |steps|
  {
    hide Inv, Enabled, Apply, Given;
    if steps != [] {
      StepHolds(s, steps[0]);
      StepKeeps(s, steps[0], b);
      var s1 := Apply(s, steps[0]);
      RunKeeps(s1, steps[1..], s', b);
      forall c | 0 <= c < |s.conns| ensures Given(s.conns[c]) <= Given(s'.conns[c]) {
        assert Given(s.conns[c]) <= Given(s1.conns[c]) <= Given(s'.conns[c]);
      }
    }
  }

  /** A call of commit, whatever else goes on: once it has returned, every connection it
      went to has run every task it had been given before the call. */
  lemma EarlierTasksRun(before: State, b: nat, lo: nat, hi: nat, steps: seq<Step>, s: State, c: nat)
    requires Inv(before) && Enabled(before, Begin(b, lo, hi))
    requires Reaches(Apply(before, Begin(b, lo, hi)), steps, s)
    requires b in s.barriers && s.barriers[b].returned && lo <= c < hi
    ensures c < |s.conns| && Given(before.conns[c]) <= s.conns[c].done
  {
    hide Inv;
    var begun := Apply(before, Begin(b, lo, hi));
    StepHolds(before, Begin(b, lo, hi));
    RunKeeps(begun, steps, s, b);
    ReturnedCommit(s, b, c);
    var conn := s.conns[c];
    assert |Given(before.conns[c])| == begun.barriers[b].marks[c] < |conn.done|;
    assert conn.done <= Given(conn);
  }

  /** The task count a connection shows is the number of tasks it has not begun. */
  lemma TasksCounted(init: State, steps: seq<Step>, s: State, c: nat)
    requires Init(init) && Reaches(init, steps, s) && c < |s.conns|
    ensures s.conns[c].tasksCount == |s.conns[c].local| + |s.conns[c].queue|
  {
    InitHolds(init);
    RunHoldsAll(init, steps, s);
    assert ConnInv(s, c);
  }

  /** A commit can always go on, unless it was asked of no connection at all: then its
      promise is never set and it never returns. */
  lemma CommitGoesOnIff(s: State, b: nat)
    requires Inv(s) && b in s.barriers && !s.barriers[b].returned
    ensures s.barriers[b].lo < s.barriers[b].hi <==>
            || Enabled(s, PushCommit(b)) || Enabled(s, Return(b))
            || exists c :: c in Waiting(s, b) && (Enabled(s, Take(c)) || Enabled(s, Run(c, true)))
  {
    var bar := s.barriers[b];
    assert BarrierInv(s, b);
    if bar.lo < bar.hi && bar.next == bar.hi && bar.sets == 0 {
      assert Waiting(s, b) != {};
      var c :| c in Waiting(s, b);
      WaitedForIsQueued(s, b, c);
      assert Enabled(s, Take(c)) || Enabled(s, Run(c, true));
    }
  }

  lemma WaitedForIsQueued(s: State, b: nat, c: nat)
    requires Inv(s) && b in s.barriers && c in Waiting(s, b) && s.barriers[b].next == s.barriers[b].hi
    ensures s.conns[c].local != [] || s.conns[c].queue != []
  {
    var conn := s.conns[c];
    assert ConnInv(s, c) && Placed(conn, c, b, s.barriers[b]);
    assert Given(conn) == conn.done + (conn.local + conn.queue);
    assert Commit(b) in Given(conn);
    assert Commit(b) in conn.local + conn.queue;
  }

  /** A call can be made for all connections and for each of them, and it returns once. */
  lemma CallsAndReturns(s: State, b: nat, c: nat)
    ensures b !in s.barriers && c < |s.conns| ==> Enabled(s, Begin(b, 0, |s.conns|)) && Enabled(s, Begin(b, c, c + 1))
    ensures Enabled(s, Return(b)) ==>
              var s' := Apply(s, Return(b));
              s'.conns == s.conns && s'.barriers[b].returned && !Enabled(s', Return(b)) && !Enabled(s', PushCommit(b))
  {}

  // ------------------------------------------------------- what is committed

  /** The i-th task was a query that went well, and no commit after it did. */
  predicate IsUncommitted(c: Conn, i: nat)
    requires |c.outcomes| == |c.done|
  {
    i < |c.done| && c.done[i].Query? && c.outcomes[i] &&
    forall j :: i < j < |c.done| && c.done[j].Commit? ==> !c.outcomes[j]
  }

  ghost predicate KnowsItsNeed(c: Conn) {
    |c.outcomes| == |c.done| && (c.needCommit <==> exists i: nat :: IsUncommitted(c, i))
  }

  lemma RanKnowsItsNeed(c: Conn, ok: bool)
    requires c.local != [] && KnowsItsNeed(c)
    ensures KnowsItsNeed(Ran(c, ok))
  {
    var r, n := Ran(c, ok), |c.done|;
    if c.needCommit {
      var i: nat :| IsUncommitted(c, i);
      if r.needCommit { assert IsUncommitted(r, i); }
    }
    if c.local[0].Query? && ok { assert IsUncommitted(r, n); }
    forall i: nat | IsUncommitted(r, i) && i != n ensures IsUncommitted(c, i) {
      forall j | i < j < n && c.done[j].Commit? ensures !c.outcomes[j] { assert r.done[j] == c.done[j]; }
    }
  }

  lemma {:induction false} AllKnowTheirNeed(s: State, steps: seq<Step>, s': State)
    requires Reaches(s, steps, s') && forall c :: 0 <= c < |s.conns| ==> KnowsItsNeed(s.conns[c])
    ensures forall c :: 0 <= c < |s'.conns| ==> KnowsItsNeed(s'.conns[c])
    decreases |steps|
  {
    hide KnowsItsNeed, Ran;
    if steps != [] {
      var s1 := Apply(s, steps[0]);
      forall c | 0 <= c < |s1.conns| ensures KnowsItsNeed(s1.conns[c]) {
        match steps[0]
        case Run(d, ok) => if c == d { RanKnowsItsNeed(s.conns[c], ok); }
        case _ => NeedUnmoved(s.conns[c], s1.conns[c]);
      }
      AllKnowTheirNeed(s1, steps[1..], s');
    }
  }

  lemma NeedUnmoved(c: Conn, d: Conn)
    requires KnowsItsNeed(c) && d.done == c.done && d.outcomes == c.outcomes && d.needCommit == c.needCommit
    ensures KnowsItsNeed(d)
  {
    forall i: nat ensures IsUncommitted(d, i) <==> IsUncommitted(c, i) {}
  }

  /** In every interleaving a connection knows that something is left to commit exactly if
      some query of its went well and no commit went well since; so when it does not, all
      that went well is committed. */
  lemma NeedsCommitIff(init: State, steps: seq<Step>, s: State, c: nat)
    requires Init(init) && Reaches(init, steps, s) && c < |s.conns|
    ensures |s.conns[c].outcomes| == |s.conns[c].done|
    ensures s.conns[c].needCommit <==> exists i: nat :: IsUncommitted(s.conns[c], i)
  {
    AllKnowTheirNeed(init, steps, s);
  }
}

/** bam/src/ba.cc: a business activity (BA) and the impacts of its KPIs. The BA keeps
    running totals, which have to agree with a simple recomputation, and writes a log of
    the states it went through. */
module BusinessActivity {
  import opened Options
  import opened Computable
  import opened FiniteSums

  type Kpi = nat

  datatype Source = FromImpact | FromBest | FromWorst | FromRatioPercent | FromRatioNumber

  datatype Behaviour = IgnoreDowntime | InheritDowntime | IgnoreKpi

  /** The running values of one side, hard or soft. */
  datatype Side = Side(level: real, acknowledgement: real, downtime: real, computed: State, criticals: nat)

  const FRESH := Side(100.0, 0.0, 0.0, OkState, 0)

  const RECOMPUTE_LIMIT := 100

  // ------------------------------------------------------- order of states

  /** is_state_worse, as it is written. */
  predicate IsWorse(current: State, new': State) {
    || (current == OkState && new' != OkState)
    || (current == WarningState && new' == CriticalState)
    || (current == UnknownState && (new' == WarningState || new' == CriticalState))
  }

  /** is_state_better, as it is written. */
  predicate IsBetter(current: State, new': State) {
    || (current == CriticalState && new' != CriticalState)
    || (current == UnknownState && new' == OkState)
    || (current == WarningState && (new' == OkState || new' == UnknownState))
  }

  function Gravity(s: State): nat {
    match s case OkState => 0 case UnknownState => 1 case WarningState => 2 case CriticalState => 3
  }

  /** Both tests are the strict directions of one total order of the states. */
  lemma OneOrder(a: State, b: State)
    ensures IsWorse(a, b) <==> Gravity(a) < Gravity(b)
    ensures IsBetter(a, b) <==> Gravity(b) < Gravity(a)
    ensures Gravity(a) == Gravity(b) ==> a == b
  {}

  // --------------------------------------------------- what the totals mean

  function Acknowledgements(all: map<Kpi, Impact>): map<Kpi, real> { map k | k in all :: all[k].acknowledgement }

  function Downtimes(all: map<Kpi, Impact>): map<Kpi, real> { map k | k in all :: all[k].downtime }

  function Nominals(all: map<Kpi, Impact>): map<Kpi, real> { map k | k in all :: all[k].nominal }

  function Criticals(all: map<Kpi, Impact>): set<Kpi> { set k | k in all && all[k].state == CriticalState }

  ghost predicate AtWorst(s: State, all: map<Kpi, Impact>) {
    && (forall k :: k in all ==> Gravity(all[k].state) <= Gravity(s))
    && (s != OkState ==> exists k :: k in all && all[k].state == s)
  }

  ghost predicate AtBest(s: State, all: map<Kpi, Impact>) {
    && (forall k :: k in all ==> Gravity(s) <= Gravity(all[k].state))
    && (s != CriticalState ==> exists k :: k in all && all[k].state == s)
  }

  /** The values of a side are those of the impacts `all`, of which `counted` are not
      ignored for a downtime. A BA that shows the best state starts with OK, and shows
      the best state only from the first impact that was taken back (`settled`). */
  ghost predicate Right(source: Source, settled: bool, s: Side, all: map<Kpi, Impact>, counted: map<Kpi, Impact>) {
    match source
    case FromImpact =>
      && s.acknowledgement == Sum(Acknowledgements(all))
      && s.downtime == Sum(Downtimes(all))
      && s.level == 100.0 - Sum(Nominals(counted))
    case FromWorst => AtWorst(s.computed, counted)
    case FromBest => if settled then AtBest(s.computed, counted) else s.computed == OkState
    case _ => s.criticals == |Criticals(counted)|
  }

  /** _apply_impact on one side. */
  function Applied(source: Source, s: Side, i: Impact, ignored: bool): Side {
    var s := s.(acknowledgement := s.acknowledgement + i.acknowledgement, downtime := s.downtime + i.downtime);
    if ignored then s
    else
      var s := s.(level := s.level - i.nominal);
      match source
      case FromBest => if IsBetter(s.computed, i.state) then s.(computed := i.state) else s
      case FromWorst => if IsWorse(s.computed, i.state) then s.(computed := i.state) else s
      case FromImpact => s
      case _ => if i.state == CriticalState then s.(criticals := s.criticals + 1) else s
  }

  /** The impact-mode half of _unapply_impact on one side. */
  function TakenBack(s: Side, i: Impact, ignored: bool): Side {
    var s := s.(acknowledgement := s.acknowledgement - i.acknowledgement, downtime := s.downtime - i.downtime);
    if ignored then s else s.(level := s.level + i.nominal)
  }

  /** How a side restarts before the other impacts are applied again. */
  function Restarted(source: Source, s: Side): Side {
    match source
    case FromImpact => FRESH.(computed := s.computed)
    case FromBest => s.(computed := CriticalState)
    case FromWorst => s.(computed := OkState)
    case _ => s.(criticals := 0)
  }

  lemma RestartedRight(source: Source, s: Side)
    ensures Right(source, true, Restarted(source, s), map[], map[])
  {}

  lemma AppliedRight(source: Source, settled: bool, s: Side, all: map<Kpi, Impact>, counted: map<Kpi, Impact>,
                     k: Kpi, i: Impact, ignored: bool)
    requires Right(source, settled, s, all, counted) && k !in all && k !in counted
    ensures Right(source, settled, Applied(source, s, i, ignored), all[k := i],
                  if ignored then counted else counted[k := i])
  {
    hide Sum, Acknowledgements, Downtimes, Nominals, Criticals, AtWorst, AtBest;
    match source
    case FromImpact =>
      InsertedSums(all, k, i);
      if !ignored { InsertedSums(counted, k, i); }
    case FromWorst => if !ignored { WorstInserted(s.computed, counted, k, i); }
    case FromBest => if !ignored && settled { BestInserted(s.computed, counted, k, i); }
    case _ =>
      if !ignored { CriticalInserted(counted, k, i); }
  }

  lemma CriticalInserted(counted: map<Kpi, Impact>, k: Kpi, i: Impact)
    requires k !in counted
    ensures |Criticals(counted[k := i])| == |Criticals(counted)| + if i.state == CriticalState then 1 else 0
  {
    assert Criticals(counted[k := i]) ==
           if i.state == CriticalState then Criticals(counted) + {k} else Criticals(counted);
  }

  lemma WorstInserted(s: State, counted: map<Kpi, Impact>, k: Kpi, i: Impact)
    requires AtWorst(s, counted) && k !in counted
    ensures AtWorst(if IsWorse(s, i.state) then i.state else s, counted[k := i])
  {
    var all := counted[k := i];
    OneOrder(s, i.state);
    assert all[k].state == i.state;
    if s != OkState {
      var j :| j in counted && counted[j].state == s;
      assert all[j].state == s;
    }
  }

  lemma BestInserted(s: State, counted: map<Kpi, Impact>, k: Kpi, i: Impact)
    requires AtBest(s, counted) && k !in counted
    ensures AtBest(if IsBetter(s, i.state) then i.state else s, counted[k := i])
  {
    var all := counted[k := i];
    OneOrder(s, i.state);
    assert all[k].state == i.state;
    if s != CriticalState {
      var j :| j in counted && counted[j].state == s;
      assert all[j].state == s;
    }
  }

  lemma InsertedSums(all: map<Kpi, Impact>, k: Kpi, i: Impact)
    requires k !in all
    ensures Sum(Acknowledgements(all[k := i])) == Sum(Acknowledgements(all)) + i.acknowledgement
    ensures Sum(Downtimes(all[k := i])) == Sum(Downtimes(all)) + i.downtime
    ensures Sum(Nominals(all[k := i])) == Sum(Nominals(all)) + i.nominal
  {
    hide Sum;
    assert Acknowledgements(all[k := i]) == Acknowledgements(all)[k := i.acknowledgement];
    SumAdd(Acknowledgements(all), k, i.acknowledgement);
    assert Downtimes(all[k := i]) == Downtimes(all)[k := i.downtime];
    SumAdd(Downtimes(all), k, i.downtime);
    assert Nominals(all[k := i]) == Nominals(all)[k := i.nominal];
    SumAdd(Nominals(all), k, i.nominal);
  }

  /** In impact mode taking an impact back undoes applying it. */
  lemma TakenBackRight(s: Side, all: map<Kpi, Impact>, counted: map<Kpi, Impact>, k: Kpi, ignored: bool)
    requires Right(FromImpact, true, s, all, counted) && k in all
    requires if ignored then k !in counted else k in counted && counted[k] == all[k]
    ensures Right(FromImpact, true, TakenBack(s, all[k], ignored), all - {k}, counted - {k})
  {
    hide Sum, Acknowledgements, Downtimes, Nominals;
    InsertedSums(all - {k}, k, all[k]);
    assert (all - {k})[k := all[k]] == all;
    if ignored {
      assert counted - {k} == counted;
    } else {
      InsertedSums(counted - {k}, k, all[k]);
      assert (counted - {k})[k := all[k]] == counted;
    }
  }

  /** The state shown in worst or best mode does not depend on the order of the impacts. */
  lemma ExtremesAreUnique(a: State, b: State, counted: map<Kpi, Impact>)
    ensures AtWorst(a, counted) && AtWorst(b, counted) ==> a == b
    ensures AtBest(a, counted) && AtBest(b, counted) ==> a == b
  {
    OneOrder(a, b);
  }

  // ---------------------------------------------------------- both sides

  type Infos = map<Kpi, ImpactInfo>

  function Impact(info: ImpactInfo, isHard: bool): Computable.Impact { if isHard then info.hard else info.soft }

  predicate Ignored(b: Behaviour, info: ImpactInfo) { b == IgnoreKpi && info.inDowntime }

  function All(infos: Infos, isHard: bool): map<Kpi, Computable.Impact> {
    map k | k in infos :: Impact(infos[k], isHard)
  }

  function Counted(b: Behaviour, infos: Infos, isHard: bool): map<Kpi, Computable.Impact> {
    map k | k in infos && !(b == IgnoreKpi && infos[k].inDowntime) :: Impact(infos[k], isHard)
  }

  /** One side agrees with the impacts. */
  ghost predicate Agrees(source: Source, b: Behaviour, settled: bool, s: Side, infos: Infos, isHard: bool) {
    Right(source, settled, s, All(infos, isHard), Counted(b, infos, isHard))
  }

  lemma AgreesAfterApply(source: Source, b: Behaviour, settled: bool, s: Side, infos: Infos, isHard: bool,
                         k: Kpi, info: ImpactInfo)
    requires Agrees(source, b, settled, s, infos, isHard) && k !in infos
    ensures Agrees(source, b, settled, Applied(source, s, Impact(info, isHard), Ignored(b, info)),
                   infos[k := info], isHard)
  {
    hide Right, Applied;
    var i := Impact(info, isHard);
    AppliedRight(source, settled, s, All(infos, isHard), Counted(b, infos, isHard), k, i, Ignored(b, info));
    assert All(infos[k := info], isHard) == All(infos, isHard)[k := i];
    assert Counted(b, infos[k := info], isHard) ==
           if Ignored(b, info) then Counted(b, infos, isHard) else Counted(b, infos, isHard)[k := i];
  }

  lemma AgreesAfterTakeBack(b: Behaviour, s: Side, infos: Infos, isHard: bool, k: Kpi)
    requires Agrees(FromImpact, b, true, s, infos, isHard) && k in infos
    ensures Agrees(FromImpact, b, true, TakenBack(s, Impact(infos[k], isHard), Ignored(b, infos[k])),
                   infos - {k}, isHard)
  {
    hide Right;
    var all, counted := All(infos, isHard), Counted(b, infos, isHard);
    TakenBackRight(s, all, counted, k, Ignored(b, infos[k]));
    assert All(infos - {k}, isHard) == all - {k};
    assert Counted(b, infos - {k}, isHard) == counted - {k};
  }

  /** The level of a side sank by the nominal impacts that count, and its other two totals
      grew by those of all the impacts. */
  ghost predicate Moved(b: Behaviour, before: Side, after: Side, infos: Infos, isHard: bool) {
    && after.level == before.level - Sum(Nominals(Counted(b, infos, isHard)))
    && after.acknowledgement == before.acknowledgement + Sum(Acknowledgements(All(infos, isHard)))
    && after.downtime == before.downtime + Sum(Downtimes(All(infos, isHard)))
  }

  lemma MovedByNothing(b: Behaviour, s: Side, isHard: bool)
    ensures Moved(b, s, s, map[], isHard)
  {
    assert Nominals(Counted(b, map[], isHard)) == map[];
    assert Acknowledgements(All(map[], isHard)) == map[];
    assert Downtimes(All(map[], isHard)) == map[];
  }

  lemma MovedByOneMore(source: Source, b: Behaviour, before: Side, s: Side, infos: Infos, isHard: bool,
                       k: Kpi, info: ImpactInfo)
    requires Moved(b, before, s, infos, isHard) && k !in infos
    ensures Moved(b, before, Applied(source, s, Impact(info, isHard), Ignored(b, info)), infos[k := info], isHard)
  {
    hide Sum, Nominals, Acknowledgements, Downtimes;
    var i := Impact(info, isHard);
    var all, counted := All(infos, isHard), Counted(b, infos, isHard);
    assert All(infos[k := info], isHard) == all[k := i];
    assert Counted(b, infos[k := info], isHard) == if Ignored(b, info) then counted else counted[k := i];
    InsertedSums(all, k, i);
    InsertedSums(counted, k, i);
  }

  lemma MovedFromRestart(source: Source, b: Behaviour, before: Side, after: Side, infos: Infos, isHard: bool)
    requires source != FromImpact && Moved(b, Restarted(source, before), after, infos, isHard)
    ensures Moved(b, before, after, infos, isHard)
  {
    hide Sum, Nominals, Acknowledgements, Downtimes, All, Counted;
  }

  /** The three totals of a side are those of the impacts. */
  ghost predicate Exact(b: Behaviour, s: Side, infos: Infos, isHard: bool) {
    && s.level == 100.0 - Sum(Nominals(Counted(b, infos, isHard)))
    && s.acknowledgement == Sum(Acknowledgements(All(infos, isHard)))
    && s.downtime == Sum(Downtimes(All(infos, isHard)))
  }

  lemma ImpactModeIsExact(b: Behaviour, settled: bool, s: Side, infos: Infos, isHard: bool)
    requires Agrees(FromImpact, b, settled, s, infos, isHard)
    ensures Exact(b, s, infos, isHard)
  {
    hide Sum, Nominals, Acknowledgements, Downtimes, All, Counted;
  }

  /** Applied again without having been taken back, they stay exact if and only if what was
      there before amounted to nothing. */
  lemma ExactAgainIff(b: Behaviour, before: Side, after: Side, infos: Infos, others: Infos, isHard: bool)
    requires Exact(b, before, infos, isHard) && Moved(b, before, after, others, isHard)
    ensures Exact(b, after, others, isHard) <==>
            && Sum(Nominals(Counted(b, infos, isHard))) == 0.0
            && Sum(Acknowledgements(All(infos, isHard))) == 0.0
            && Sum(Downtimes(All(infos, isHard))) == 0.0
  {
    hide Sum, Nominals, Acknowledgements, Downtimes, All, Counted;
  }

  // ---------------------------------------------------------- the event log

  /** An event of the BA: open as long as it has no end. */
  datatype Event = Event(start: int, end: Option<int>, status: State, inDowntime: bool, firstLevel: real)

  /** What a log amounts to. */
  datatype Trace = Broken | Empty | Opened(event: Event) | Closed(event: Event)

  /** Events are opened and closed in turn; a closing record repeats its opening record
      and does not end before it starts; the next event starts where the last one ended,
      and differs from it. */
  function Extend(t: Trace, e: Event): Trace {
    match t
    case Broken => Broken
    case Empty => if e.end.None? then Opened(e) else Broken
    case Opened(o) => if e.end.Some? && e == o.(end := e.end) && o.start <= e.end.value then Closed(e) else Broken
    case Closed(c) =>
      if e.end.None? && Some(e.start) == c.end && (e.status != c.status || e.inDowntime != c.inDowntime)
      then Opened(e) else Broken
  }

  function TraceOf(log: seq<Event>): Trace {
    if log == [] then Empty else Extend(TraceOf(log[..|log| - 1]), log[|log| - 1])
  }

  lemma TraceOfMore(log: seq<Event>, e: Event)
    ensures TraceOf(log + [e]) == Extend(TraceOf(log), e)
  {
    assert (log + [e])[..|log|] == log;
  }

  /** A KPI as it is now. */
  datatype Live = Live(info: ImpactInfo, okState: bool)

  /** The downtime flags after _compute_inherited_downtime: (inherited, BA in downtime). */
  function Inherit(inherited: bool, inDowntime: bool, stateOk: bool, every: bool): (bool, bool) {
    if !stateOk && every && !inherited then (true, true)
    else if (stateOk || !every) && inherited then (false, inDowntime)
    else (inherited, inDowntime)
  }

  /** The inherited downtime follows its condition, but its end does not take the BA out of
      downtime: the two agree afterwards only if the BA begins to inherit a downtime, or
      already agreed with it. */
  lemma DowntimeOutlivesInheritance(inherited: bool, inDowntime: bool, stateOk: bool, every: bool)
    ensures var (inherited', inDowntime') := Inherit(inherited, inDowntime, stateOk, every);
            && (inherited' <==> !stateOk && every)
            && (inDowntime' <==> inDowntime || (inherited' && !inherited))
            && ((inDowntime' <==> inherited') <==>
                  if !stateOk && every then !inherited || inDowntime else !inDowntime)
  {}

  function Positive(r: real): real { if r < 0.0 then 0.0 else r }

  function Threshold(n: real, critical: real, warning: real): State {
    if n >= critical then CriticalState else if n >= warning then WarningState else OkState
  }

  lemma ThresholdReached(n: real, critical: real, warning: real)
    ensures var s := Threshold(n, critical, warning);
            && s != UnknownState && (s == CriticalState <==> critical <= n) && (s == WarningState <==> warning <= n < critical)
  {}

  function Percentage(n: nat, all: nat): real
    requires all > 0
  {
    n as real / all as real * 100.0
  }

  lemma PercentageReaches(n: nat, all: nat, level: real)
    requires all > 0
    ensures level <= Percentage(n, all) <==> level * all as real <= 100.0 * n as real
  {
    var share := n as real / all as real;
    assert share * all as real == n as real;
    assert Percentage(n, all) * all as real == 100.0 * n as real;
    if level <= Percentage(n, all) {
      assert level * all as real <= Percentage(n, all) * all as real;
    } else {
      assert level * all as real > Percentage(n, all) * all as real;
    }
  }

  /** The later of the last update and a state change, if there was one. */
  function Latest(update: int, change: int): int { if change != -1 && change > update then change else update }

  class Ba {
    const source: Source
    const behaviour: Behaviour
    const levelWarning: real
    const levelCritical: real
    var valid: bool
    var impacts: Infos
    var hard: Side
    var soft: Side
    var recomputeCount: nat
    ghost var settled: bool
    var inherited: bool
    var inDowntime: bool
    var lastKpiUpdate: int
    var event: Option<Event>
    var initialEvents: seq<Event>
    var log: seq<Event>

    constructor (source: Source, behaviour: Behaviour, levelWarning: real, levelCritical: real)
      ensures this.source == source && this.behaviour == behaviour
      ensures this.levelWarning == levelWarning && this.levelCritical == levelCritical
      ensures impacts == map[] && log == [] && Valid()
      ensures valid && !inherited && !inDowntime && lastKpiUpdate == 0 && recomputeCount == 0
      ensures event.None? && initialEvents == []
    {
      this.source, this.behaviour := source, behaviour;
      this.levelWarning, this.levelCritical := levelWarning, levelCritical;
      valid, impacts, hard, soft, recomputeCount, settled := true, map[], FRESH, FRESH, 0, false;
      inherited, inDowntime, lastKpiUpdate := false, false, 0;
      event, initialEvents, log := Option.None, [], [];
    }

    /** Both sides agree with the impacts. */
    ghost predicate Totals(infos: Infos)
      reads this`hard, this`soft, this`settled
    {
      && Agrees(source, behaviour, settled, hard, infos, true)
      && Agrees(source, behaviour, settled, soft, infos, false)
    }

    /** The log, with the initial events still to be written, tells of the current event. */
    ghost predicate Logged()
      reads this
    {
      && TraceOf(log + initialEvents) == (if event.None? then Empty else Opened(event.value))
      && (event.Some? ==> event.value.start <= lastKpiUpdate)
    }

    ghost predicate Valid()
      reads this
    {
      Totals(impacts) && Logged()
    }

    // ------------------------------------------------------------- totals

    method Apply(info: ImpactInfo)
      modifies this`hard, this`soft
      ensures hard == Applied(source, old(hard), info.hard, Ignored(behaviour, info))
      ensures soft == Applied(source, old(soft), info.soft, Ignored(behaviour, info))
    {
      hard := Applied(source, hard, info.hard, Ignored(behaviour, info));
      soft := Applied(source, soft, info.soft, Ignored(behaviour, info));
    }

    /** Applies the impacts again, all but those of `skip`, in any order, on sides that
        were restarted. */
    method ApplyAgain(skip: set<Kpi>)
      requires settled && Totals(map[])
      modifies this`hard, this`soft
      ensures Totals(impacts - skip)
      ensures Moved(behaviour, old(hard), hard, impacts - skip, true)
      ensures Moved(behaviour, old(soft), soft, impacts - skip, false)
    {
      hide Right, Applied, Agrees, Moved;
      ghost var infos: Infos := map[];
      MovedByNothing(behaviour, hard, true);
      MovedByNothing(behaviour, soft, false);
      var todo := impacts.Keys - skip;
      while todo != {}
        invariant todo <= impacts.Keys - skip
        invariant infos == impacts - skip - todo
        invariant Totals(infos)
        invariant Moved(behaviour, old(hard), hard, infos, true)
        invariant Moved(behaviour, old(soft), soft, infos, false)
      {
        var k :| k in todo;
        MovedByOneMore(source, behaviour, old(hard), hard, infos, true, k, impacts[k]);
        MovedByOneMore(source, behaviour, old(soft), soft, infos, false, k, impacts[k]);
        AgreesAfterApply(source, behaviour, settled, hard, infos, true, k, impacts[k]);
        AgreesAfterApply(source, behaviour, settled, soft, infos, false, k, impacts[k]);
        Apply(impacts[k]);
        todo := todo - {k};
        infos := infos[k := impacts[k]];
      }
      assert infos == impacts - skip;
    }

    /** _recompute; it restarts from zero, keeping the states shown in other modes. */
    method Recompute()
      requires source == FromImpact && settled
      modifies this`hard, this`soft, this`recomputeCount
      ensures Totals(impacts) && recomputeCount == 0
    {
      hide Right, Moved;
      ghost var h, s := hard, soft;
      hard, soft := Restarted(source, hard), Restarted(source, soft);
      RestartedAgrees(source, behaviour, h, true);
      RestartedAgrees(source, behaviour, s, false);
      ApplyAgain({});
      assert impacts - {} == impacts;
      recomputeCount := 0;
    }

    /** _unapply_impact: whether or not the periodic recomputation fires in the middle,
        what remains are the totals of the other impacts. In the other modes the other
        impacts are applied once more without being taken back: the levels sink, and the
        totals of acknowledgements and downtimes grow. */
    method Unapply(k: Kpi)
      requires Totals(impacts) && k in impacts
      modifies this`hard, this`soft, this`recomputeCount, this`settled
      ensures settled && Totals(impacts - {k})
      ensures recomputeCount == if source != FromImpact then old(recomputeCount)
                                else if old(recomputeCount) + 1 < RECOMPUTE_LIMIT then old(recomputeCount) + 1 else 0
      ensures source == FromImpact ==>
                Exact(behaviour, hard, impacts - {k}, true) && Exact(behaviour, soft, impacts - {k}, false)
      ensures source != FromImpact ==>
                && Moved(behaviour, old(hard), hard, impacts - {k}, true)
                && Moved(behaviour, old(soft), soft, impacts - {k}, false)
    {
      hide Applied, TakenBack, Right, Moved, Exact, Agrees;
      var info := impacts[k];
      settled := true;
      if source == FromImpact {
        AgreesSettled(behaviour, old(settled), hard, impacts, true);
        AgreesSettled(behaviour, old(settled), soft, impacts, false);
        recomputeCount := recomputeCount + 1;
        if recomputeCount >= RECOMPUTE_LIMIT { Recompute(); }
        AgreesAfterTakeBack(behaviour, hard, impacts, true, k);
        AgreesAfterTakeBack(behaviour, soft, impacts, false, k);
        hard := TakenBack(hard, info.hard, Ignored(behaviour, info));
        soft := TakenBack(soft, info.soft, Ignored(behaviour, info));
        ImpactModeIsExact(behaviour, settled, hard, impacts - {k}, true);
        ImpactModeIsExact(behaviour, settled, soft, impacts - {k}, false);
      } else {
        hard, soft := Restarted(source, hard), Restarted(source, soft);
        RestartedAgrees(source, behaviour, old(hard), true);
        RestartedAgrees(source, behaviour, old(soft), false);
        ApplyAgain({k});
        MovedFromRestart(source, behaviour, old(hard), hard, impacts - {k}, true);
        MovedFromRestart(source, behaviour, old(soft), soft, impacts - {k}, false);
      }
    }

    /** add_impact, with the time of the KPI's last state change (-1 if it has none). */
    method AddImpact(k: Kpi, info: ImpactInfo, lastChange: int)
      requires Valid()
      modifies this`impacts, this`hard, this`soft, this`lastKpiUpdate
      ensures Valid()
      ensures impacts == if k in old(impacts) then old(impacts) else old(impacts)[k := info]
      ensures lastKpiUpdate == if k in old(impacts) then old(lastKpiUpdate) else Latest(old(lastKpiUpdate), lastChange)
    {
      hide Agrees, Applied, TraceOf;
      if k !in impacts {
        AgreesAfterApply(source, behaviour, settled, hard, impacts, true, k, info);
        AgreesAfterApply(source, behaviour, settled, soft, impacts, false, k, info);
        impacts := impacts[k := info];
        Apply(info);
        Changed(lastChange);
      }
    }

    method Changed(lastChange: int)
      modifies this`lastKpiUpdate
      ensures lastKpiUpdate == Latest(old(lastKpiUpdate), lastChange)
    {
      if lastChange != -1 && lastChange > lastKpiUpdate { lastKpiUpdate := lastChange; }
    }

    method RemoveImpact(k: Kpi)
      requires Valid()
      modifies this`impacts, this`hard, this`soft, this`recomputeCount, this`settled
      ensures Valid() && impacts == old(impacts) - {k}
    {
      hide Agrees, TraceOf;
      if k in impacts {
        Unapply(k);
        impacts := impacts - {k};
      } else {
        assert impacts - {k} == impacts;
      }
    }

    // ------------------------------------------------------ state and events

    /** _every_kpi_in_dt without regard to the states. */
    predicate EveryInDowntime(live: map<Kpi, Live>)
      reads this`impacts
      requires impacts.Keys <= live.Keys
    {
      impacts != map[] && forall k :: k in impacts ==> live[k].info.inDowntime
    }

    function ShownState(s: Side, allInDowntime: bool): State
      reads this`valid, this`impacts
    {
      match source
      case FromImpact =>
        if !valid then UnknownState
        else if s.level <= levelCritical then CriticalState
        else if s.level <= levelWarning then WarningState
        else OkState
      case FromRatioNumber => Threshold(s.criticals as real, levelCritical, levelWarning)
      case FromRatioPercent =>
        if |impacts| == 0 then OkState
        else Threshold(Percentage(s.criticals, |impacts|), levelCritical, levelWarning)
      case _ => if behaviour == IgnoreKpi && allInDowntime then OkState else s.computed
    }

    /** get_state_hard. */
    function StateHard(live: map<Kpi, Live>): State
      reads this`hard, this`valid, this`impacts
      requires impacts.Keys <= live.Keys
    {
      ShownState(hard, EveryInDowntime(live))
    }

    /** All KPIs are ignored for a downtime. */
    ghost predicate AllIgnored(live: map<Kpi, Live>)
      reads this`impacts
      requires impacts.Keys <= live.Keys
    {
      behaviour == IgnoreKpi && impacts != map[] && forall k :: k in impacts ==> live[k].info.inDowntime
    }

    /** The state is the one that the impacts of the KPIs amount to. */
    ghost predicate IsRight(state: State, live: map<Kpi, Live>)
      reads this`valid, this`impacts, this`settled
      requires impacts.Keys <= live.Keys
    {
      var counted := Counted(behaviour, impacts, true);
      match source
      case FromImpact =>
        var level := 100.0 - Sum(Nominals(counted));
        && (state == UnknownState <==> !valid)
        && (state == CriticalState <==> valid && level <= levelCritical)
        && (state == WarningState <==> valid && levelCritical < level <= levelWarning)
      case FromRatioNumber =>
        var criticals := |Criticals(counted)| as real;
        && state != UnknownState
        && (state == CriticalState <==> levelCritical <= criticals)
        && (state == WarningState <==> levelWarning <= criticals < levelCritical)
      case FromRatioPercent =>
        var criticals, all := 100.0 * |Criticals(counted)| as real, |impacts| as real;
        && state != UnknownState
        && (state == CriticalState <==> impacts != map[] && levelCritical * all <= criticals)
        && (state == WarningState <==> impacts != map[] && levelWarning * all <= criticals < levelCritical * all)
      case FromWorst => if AllIgnored(live) then state == OkState else AtWorst(state, counted)
      case FromBest =>
        if AllIgnored(live) || !settled then state == OkState else AtBest(state, counted)
    }

    lemma StateIsRight(live: map<Kpi, Live>)
      requires impacts.Keys <= live.Keys && Totals(impacts)
      ensures IsRight(StateHard(live), live)
    {
      hide Sum, Nominals, Acknowledgements, Downtimes, All, Criticals, Counted, AtWorst, AtBest, Threshold, Percentage;
      if source == FromRatioPercent && |impacts| > 0 {
        PercentageReaches(hard.criticals, |impacts|, levelCritical);
        PercentageReaches(hard.criticals, |impacts|, levelWarning);
        ThresholdReached(Percentage(hard.criticals, |impacts|), levelCritical, levelWarning);
      } else if source == FromRatioNumber {
        ThresholdReached(hard.criticals as real, levelCritical, levelWarning);
      }
    }

    /** What a visit tells is right if the totals agree with the impacts. */
    lemma ToldRight(live: map<Kpi, Live>)
      requires impacts.Keys <= live.Keys
      ensures Totals(impacts) ==> IsRight(StateHard(live), live)
      ensures Totals(impacts) && source == FromImpact ==>
                hard.level == 100.0 - Sum(Nominals(Counted(behaviour, impacts, true)))
    {
      hide Agrees, IsRight, Sum, Nominals, Counted;
      if Totals(impacts) {
        StateIsRight(live);
        if source == FromImpact { ImpactModeIsExact(behaviour, settled, hard, impacts, true); }
      }
    }

    method Open(status: State)
      requires event.None? && initialEvents == [] && Extend(TraceOf(log), NewEvent(status)).Opened?
      modifies this`event, this`log
      ensures event == Some(NewEvent(status)) && log == old(log) + [NewEvent(status)]
      ensures TraceOf(log) == Opened(NewEvent(status))
    {
      event := Some(NewEvent(status));
      TraceOfMore(log, event.value);
      log := log + [event.value];
    }

    /** What _open_new_event fills in. */
    function NewEvent(status: State): Event
      reads this
    {
      Event(lastKpiUpdate, Option.None, status, inDowntime, Positive(hard.level))
    }

    /** What a visit writes: the first event, a closing and an opening record, or nothing. */
    function Records(open: Option<Event>, status: State): seq<Event>
      reads this
    {
      match open
      case None => [NewEvent(status)]
      case Some(e) =>
        if inDowntime != e.inDowntime || status != e.status
        then [e.(end := Some(lastKpiUpdate)), NewEvent(status)] else []
    }

    /** visit, at the time now: afterwards the open event tells the current hard state. */
    method Visit(live: map<Kpi, Live>, now: int, visitor: bool)
      requires Logged() && impacts.Keys <= live.Keys
      modifies this`event, this`log, this`initialEvents, this`lastKpiUpdate
      ensures Logged() && old(log) <= log
      ensures visitor ==> initialEvents == [] && event.Some?
      ensures visitor ==> event.value.status == StateHard(live) && event.value.inDowntime == inDowntime
      ensures visitor ==> log == old(log + initialEvents) + Records(old(event), StateHard(live))
      ensures lastKpiUpdate ==
              if visitor && old(event).None? && old(lastKpiUpdate) in {-1, 0} then now else old(lastKpiUpdate)
      ensures !visitor ==> event == old(event) && log == old(log) && initialEvents == old(initialEvents)
      ensures visitor && Totals(impacts) ==> IsRight(event.value.status, live)
      ensures visitor && event != old(event) && source == FromImpact && Totals(impacts) ==>
                var level := 100.0 - Sum(Nominals(Counted(behaviour, impacts, true)));
                event.value.firstLevel == if level < 0.0 then 0.0 else level
    {
      hide TraceOf, Threshold, ShownState, IsRight, Agrees, Sum, Nominals, Counted, StateHard, EveryInDowntime, Totals;
      if !visitor { return; }
      log := log + initialEvents;
      initialEvents := [];
      assert log + [] == log;
      var state := StateHard(live);
      ToldRight(live);
      if event.None? {
        if lastKpiUpdate == -1 || lastKpiUpdate == 0 { lastKpiUpdate := now; }
        Open(state);
      } else if inDowntime != event.value.inDowntime || state != event.value.status {
        var closed := event.value.(end := Some(lastKpiUpdate));
        TraceOfMore(log, closed);
        log := log + [closed];
        event := Option.None;
        Open(state);
      }
      assert log + [] == log;
    }

    /** _compute_inherited_downtime. */
    method ComputeInheritedDowntime(live: map<Kpi, Live>)
      requires impacts.Keys <= live.Keys
      modifies this`inherited, this`inDowntime
      ensures inDowntime <==> old(inDowntime) || (inherited && !old(inherited))
      ensures behaviour == InheritDowntime ==>
                (inherited <==> StateHard(live) != OkState && impacts != map[] &&
                                forall k :: k in impacts ==> live[k].okState || live[k].info.inDowntime)
      ensures behaviour != InheritDowntime ==> inherited == old(inherited) && inDowntime == old(inDowntime)
    {
      hide Threshold;
      if behaviour != InheritDowntime { return; }
      var every := impacts != map[] && forall k :: k in impacts ==> live[k].okState || live[k].info.inDowntime;
      var stateOk := StateHard(live) == OkState;
      var flags := Inherit(inherited, inDowntime, stateOk, every);
      inherited, inDowntime := flags.0, flags.1;
    }

    /** The middle of child_has_update: the old impact is taken back, the new one applied. */
    method Replace(k: Kpi, info: ImpactInfo)
      requires Totals(impacts) && k in impacts
      modifies this`hard, this`soft, this`recomputeCount, this`settled, this`impacts
      ensures Totals(impacts) && impacts == old(impacts)[k := info]
    {
      hide Agrees, Applied;
      Unapply(k);
      ghost var others := impacts - {k};
      AgreesAfterApply(source, behaviour, settled, hard, others, true, k, info);
      AgreesAfterApply(source, behaviour, settled, soft, others, false, k, info);
      assert others[k := info] == impacts[k := info];
      impacts := impacts[k := info];
      Apply(info);
    }

    /** child_has_update for KPI k, whose impact is now live[k]. */
    method ChildHasUpdate(k: Kpi, live: map<Kpi, Live>, lastChange: int, now: int, visitor: bool)
      returns (changed: bool)
      requires Valid() && impacts.Keys <= live.Keys
      modifies this`impacts, this`hard, this`soft, this`recomputeCount, this`settled
      modifies this`inherited, this`inDowntime, this`lastKpiUpdate, this`event, this`log, this`initialEvents
      ensures Valid() && old(log) <= log
      ensures impacts == if k in old(impacts) then old(impacts)[k := live[k].info] else old(impacts)
      ensures !changed <==> k in old(impacts) && old(impacts)[k] == live[k].info
      ensures !changed ==> event == old(event) && log == old(log) && hard == old(hard) && soft == old(soft)
      ensures !changed ==> inDowntime == old(inDowntime)
      ensures old(inDowntime) ==> inDowntime
      ensures changed && k in old(impacts) && visitor ==>
                event.Some? && event.value.status == StateHard(live) && event.value.inDowntime == inDowntime
      ensures changed && k in old(impacts) && visitor ==> IsRight(event.value.status, live)
      ensures changed && k in old(impacts) && visitor ==>
                log == old(log + initialEvents) + Records(old(event), StateHard(live))
      ensures changed && k in old(impacts) && behaviour == InheritDowntime ==>
                && (inherited <==> StateHard(live) != OkState && forall j :: j in impacts ==> live[j].okState || live[j].info.inDowntime)
                && (inDowntime <==> old(inDowntime) || (inherited && !old(inherited)))
      ensures !changed || k !in old(impacts) || behaviour != InheritDowntime ==>
                inherited == old(inherited) && inDowntime == old(inDowntime)
      ensures var update := if changed && k in old(impacts) then Latest(old(lastKpiUpdate), lastChange) else old(lastKpiUpdate);
              lastKpiUpdate ==
              if changed && k in old(impacts) && visitor && old(event).None? && update in {-1, 0} then now else update
    {
      hide Agrees, Applied, TraceOf, Threshold, Totals, ShownState, IsRight;
      changed := true;
      if k in impacts {
        var info := live[k].info;
        if impacts[k] == info {
          assert impacts[k := info] == impacts;
          return false;
        }
        Changed(lastChange);
        Replace(k, info);
        ComputeInheritedDowntime(live);
        Visit(live, now, visitor);
      }
    }

    /** service_update: a downtime of the BA's own service started or ended. */
    method DowntimeUpdate(started: bool, live: map<Kpi, Live>, now: int, visitor: bool)
      requires Valid() && impacts.Keys <= live.Keys
      modifies this`inDowntime, this`event, this`log, this`initialEvents, this`lastKpiUpdate
      ensures Valid() && old(log) <= log && inDowntime == started
      ensures started == old(inDowntime) ==> event == old(event) && log == old(log)
      ensures visitor && started != old(inDowntime) ==> event.Some? && event.value.inDowntime == started
      ensures visitor && started != old(inDowntime) ==> IsRight(event.value.status, live)
    {
      hide Agrees, TraceOf, IsRight;
      if inDowntime != started {
        inDowntime := started;
        Visit(live, now, visitor);
      }
    }

    /** set_initial_event: the event that was open when the program stopped. */
    method SetInitialEvent(e: Event)
      requires Valid() && e.end.None?
      modifies this`event, this`inDowntime, this`lastKpiUpdate, this`initialEvents
      ensures Valid()
      ensures event == if old(event).None? then Some(e) else old(event)
      ensures initialEvents == if old(event).None? then old(initialEvents) + [e] else old(initialEvents)
      ensures inDowntime == (if old(event).None? then e.inDowntime else old(inDowntime))
      ensures lastKpiUpdate == if old(event).None? then e.start else old(lastKpiUpdate)
    {
      hide Agrees, TraceOf;
      if event.None? {
        NothingLogged(log + initialEvents);
        FirstLogged(e);
        event := Some(e);
        inDowntime := e.inDowntime;
        lastKpiUpdate := e.start;
        initialEvents := initialEvents + [e];
        assert log + initialEvents == [e];
      }
    }
  }

  lemma FirstLogged(e: Event)
    requires e.end.None?
    ensures TraceOf([e]) == Opened(e)
  {
    assert [e][..0] == [];
  }

  lemma {:induction false} NothingLogged(log: seq<Event>)
    ensures TraceOf(log) == Empty ==> log == []
  {}

  lemma AgreesSettled(b: Behaviour, settled: bool, s: Side, infos: Infos, isHard: bool)
    requires Agrees(FromImpact, b, settled, s, infos, isHard)
    ensures Agrees(FromImpact, b, true, s, infos, isHard)
  {}

  lemma RestartedAgrees(source: Source, b: Behaviour, s: Side, isHard: bool)
    ensures Agrees(source, b, true, Restarted(source, s), map[], isHard)
    ensures source != FromImpact ==> Restarted(source, s).level == s.level
  {
    RestartedRight(source, s);
    assert All(map[], isHard) == map[] && Counted(b, map[], isHard) == map[];
  }

  /** In best mode a BA starts by showing OK. Until the first impact is taken back, that is
      the best state if and only if some KPI that counts is OK. */
  lemma FirstStateIsBestIff(ba: Ba)
    requires ba.Valid() && ba.source == FromBest && !ba.settled
    ensures AtBest(ba.hard.computed, Counted(ba.behaviour, ba.impacts, true)) <==>
            exists k :: k in ba.impacts && !Ignored(ba.behaviour, ba.impacts[k]) && ba.impacts[k].hard.state == OkState
    ensures AtBest(ba.soft.computed, Counted(ba.behaviour, ba.impacts, false)) <==>
            exists k :: k in ba.impacts && !Ignored(ba.behaviour, ba.impacts[k]) && ba.impacts[k].soft.state == OkState
  {
    hide TraceOf, Counted;
    OkIsBest(ba.behaviour, ba.impacts, true);
    OkIsBest(ba.behaviour, ba.impacts, false);
  }

  lemma OkIsBest(b: Behaviour, infos: Infos, isHard: bool)
    ensures AtBest(OkState, Counted(b, infos, isHard)) <==>
            exists k :: k in infos && !Ignored(b, infos[k]) && Impact(infos[k], isHard).state == OkState
  {
    var counted := Counted(b, infos, isHard);
    if k :| k in infos && !Ignored(b, infos[k]) && Impact(infos[k], isHard).state == OkState {
      assert k in counted && counted[k].state == OkState;
    }
  }
}

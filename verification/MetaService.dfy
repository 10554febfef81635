/** bam/src/meta_service.cc: a meta-service aggregates metrics. Its value is updated
    incrementally, or recomputed when it was marked stale or updated often enough. */
module MetaService {
  import opened Options
  import opened Computable
  import opened FiniteSums

  type MetricId = nat

  datatype Computation = Average | Minimum | Maximum | Total

  /** What the meta-service writes: a meta_service_status of `visit`, or the service
      status that `_send_service_status` sends now and then. */
  datatype Report = MetaStatus(value: Num, stateChanged: bool) | ServiceStatus(value: Num, state: State)

  const RECOMPUTE_LIMIT := 100

  ghost predicate IsMinimum(v: real, metrics: map<MetricId, real>) {
    (forall m :: m in metrics ==> v <= metrics[m]) && exists m :: m in metrics && metrics[m] == v
  }

  ghost predicate IsMaximum(v: real, metrics: map<MetricId, real>) {
    (forall m :: m in metrics ==> metrics[m] <= v) && exists m :: m in metrics && metrics[m] == v
  }

  function Quotient(total: real, count: nat): Num {
    if count == 0 then NaN else Real(total / count as real)
  }

  /** v is the aggregate of the metrics. */
  ghost predicate IsAggregate(c: Computation, v: Num, metrics: map<MetricId, real>) {
    match c
    case Total => v == Real(Sum(metrics))
    case Average => v == Quotient(Sum(metrics), |metrics|)
    case Minimum => if metrics == map[] then v == NaN else v.Real? && IsMinimum(v.value, metrics)
    case Maximum => if metrics == map[] then v == NaN else v.Real? && IsMaximum(v.value, metrics)
  }

  lemma AggregateIsUnique(c: Computation, v: Num, w: Num, metrics: map<MetricId, real>)
    requires IsAggregate(c, v, metrics) && IsAggregate(c, w, metrics)
    ensures v == w
  {}

  /** Whether the partial update keeps the value, or has to give up and recompute. */
  function Partial(c: Computation, v: real, old': real, new': real, count: nat): Option<real>
    requires count > 0
  {
    match c
    case Minimum => if new' <= v then Some(new') else if v == old' then None else Some(v)
    case Maximum => if new' >= v then Some(new') else if v == old' then None else Some(v)
    case Total => Some(v - old' + new')
    case Average => Some(v + (new' - old') / count as real)
  }

  /** The partial update refines the recomputation: where it keeps a value, that is the
      aggregate of the metrics with the new value. */
  lemma PartialIsAggregate(c: Computation, v: Num, metrics: map<MetricId, real>, m: MetricId, new': real)
    requires IsAggregate(c, v, metrics) && m in metrics
    ensures v.Real?
    ensures var p := Partial(c, v.value, metrics[m], new', |metrics|);
            p.Some? ==> IsAggregate(c, Real(p.value), metrics[m := new'])
  {
    hide Sum;
    var after := metrics[m := new'];
    assert after[m] == new';
    match c
    case Total => SumReplace(metrics, m, new');
    case Average =>
      SumReplace(metrics, m, new');
      CardinalityKept(metrics, m, new');
      AverageMoves(Sum(metrics), new' - metrics[m], |metrics|);
    case Minimum =>
      var k :| k in metrics && metrics[k] == v.value;
      if new' > v.value && v.value != metrics[m] { assert after[k] == v.value; }
    case Maximum =>
      var k :| k in metrics && metrics[k] == v.value;
      if new' < v.value && v.value != metrics[m] { assert after[k] == v.value; }
  }

  lemma CardinalityKept(metrics: map<MetricId, real>, m: MetricId, v: real)
    requires m in metrics
    ensures |metrics[m := v]| == |metrics| > 0
  {
    assert metrics[m := v].Keys == metrics.Keys;
  }

  lemma AverageMoves(total: real, delta: real, count: nat)
    requires count > 0
    ensures total / count as real + delta / count as real == (total + delta) / count as real
  {}

  class Meta {
    var computation: Computation
    var metrics: map<MetricId, real>
    var value: Num
    var recomputeCount: nat
    var levelWarning: real
    var levelCritical: real
    var lastState: State
    var lastSent: int        // when a service status was last sent; -1 for never
    var reports: seq<Report>
    /** The computation and the metrics the value was last brought up to date for. */
    ghost var computedAs: Computation
    ghost var computedFrom: map<MetricId, real>

    constructor ()
      ensures Valid() && UpToDate() && metrics == map[] && reports == [] && value == NaN && lastSent == -1
      ensures computation == Average && recomputeCount == 0 && levelWarning == levelCritical == 0.0
    {
      computation, metrics, value, recomputeCount := Average, map[], NaN, 0;
      levelWarning, levelCritical, lastState, lastSent, reports := 0.0, 0.0, UnknownState, -1, [];
      computedAs, computedFrom := Average, map[];
    }

    /** Every reachable meta-service holds the true aggregate of the metrics it was last
        brought up to date for, and is stale if these are not the metrics it has. */
    ghost predicate Valid()
      reads this
    {
      && IsAggregate(computedAs, value, computedFrom)
      && (recomputeCount < RECOMPUTE_LIMIT ==> UpToDate())
    }

    ghost predicate UpToDate()
      reads this`computedAs, this`computedFrom, this`computation, this`metrics
    {
      computedAs == computation && computedFrom == metrics
    }

    method AddMetric(m: MetricId)
      requires Valid()
      modifies this`metrics, this`recomputeCount
      ensures Valid() && metrics == old(metrics)[m := 0.0] && recomputeCount == RECOMPUTE_LIMIT
    {
      hide IsAggregate;
      metrics := metrics[m := 0.0];
      recomputeCount := RECOMPUTE_LIMIT;
    }

    method RemoveMetric(m: MetricId)
      requires Valid()
      modifies this`metrics, this`recomputeCount
      ensures Valid() && metrics == old(metrics) - {m} && recomputeCount == RECOMPUTE_LIMIT
    {
      hide IsAggregate;
      metrics := metrics - {m};
      recomputeCount := RECOMPUTE_LIMIT;
    }

    method SetComputation(c: Computation)
      requires Valid()
      modifies this`computation, this`recomputeCount
      ensures Valid() && computation == c && recomputeCount == RECOMPUTE_LIMIT
    {
      hide IsAggregate;
      computation := c;
      recomputeCount := RECOMPUTE_LIMIT;
    }

    /** recompute: one pass over the metrics in any order. */
    method Recompute()
      modifies this`value, this`recomputeCount, this`computedAs, this`computedFrom
      ensures Valid() && UpToDate() && recomputeCount == 0
    {
      computedAs, computedFrom := computation, metrics;
      if computation == Minimum {
        value := Extreme(true);
      } else if computation == Maximum {
        value := Extreme(false);
      } else {
        var total := Summed();
        value := if computation == Total then Real(total) else Quotient(total, |metrics|);
      }
      recomputeCount := 0;
    }

    method Extreme(least: bool) returns (v: Num)
      ensures IsAggregate(if least then Minimum else Maximum, v, metrics)
    {
      if metrics == map[] { return NaN; }
      var first :| first in metrics;
      var best := metrics[first];
      var todo := metrics.Keys - {first};
      while todo != {}
        invariant todo <= metrics.Keys
        invariant forall m :: m in metrics && m !in todo ==> if least then best <= metrics[m] else metrics[m] <= best
        invariant exists m :: m in metrics && metrics[m] == best
      {
        var m :| m in todo;
        if if least then metrics[m] < best else metrics[m] > best { best := metrics[m]; }
        todo := todo - {m};
      }
      return Real(best);
    }

    method Summed() returns (total: real)
      ensures total == Sum(metrics)
    {
      total := 0.0;
      var todo := metrics.Keys;
      ghost var done: map<MetricId, real> := map[];
      while todo != {}
        invariant todo <= metrics.Keys && done == metrics - todo
        invariant total == Sum(done)
      {
        var m :| m in todo;
        SumAdd(done, m, metrics[m]);
        total := total + metrics[m];
        done := done[m := metrics[m]];
        todo := todo - {m};
      }
      assert done == metrics;
    }

    /** _recompute_partial, after a metric went from oldValue to newValue. */
    method RecomputePartial(newValue: real, oldValue: real, ghost m: MetricId, ghost before: map<MetricId, real>)
      requires m in before && before[m] == oldValue && metrics == before[m := newValue]
      requires IsAggregate(computation, value, before)
      modifies this`value, this`recomputeCount, this`computedAs, this`computedFrom
      ensures Valid() && UpToDate()
      ensures recomputeCount in {old(recomputeCount), 0}
      ensures computation in {Average, Total} ==> recomputeCount == old(recomputeCount)
    {
      hide Sum, IsAggregate;
      PartialIsAggregate(computation, value, before, m, newValue);
      CardinalityKept(before, m, newValue);
      computedAs, computedFrom := computation, metrics;
      match computation
      case Minimum =>
        if newValue <= value.value { value := Real(newValue); }
        else if value.value == oldValue { Recompute(); }
      case Maximum =>
        if newValue >= value.value { value := Real(newValue); }
        else if value.value == oldValue { Recompute(); }
      case Total => value := Real(value.value - oldValue + newValue);
      case Average => value := Real(value.value + (newValue - oldValue) / |metrics| as real);
    }

    /** get_state: comparisons with a NaN value are false. */
    function GetState(): State
      reads this
    {
      var up := levelWarning < levelCritical;
      if Reached(up, levelCritical) then CriticalState
      else if Reached(up, levelWarning) then WarningState
      else if value.NaN? then UnknownState
      else OkState
    }

    /** The state that the value v has between the levels, CRITICAL lying on the far side of
        WARNING: above it if its level is higher, and below it if not. */
    ghost predicate IsState(state: State, v: Num)
      reads this`levelWarning, this`levelCritical
    {
      && (state == UnknownState <==> v == NaN)
      && (v.Real? && levelWarning < levelCritical ==>
            && (state == CriticalState <==> levelCritical <= v.value)
            && (state == WarningState <==> levelWarning <= v.value < levelCritical))
      && (v.Real? && levelCritical <= levelWarning ==>
            && (state == CriticalState <==> v.value <= levelCritical)
            && (state == WarningState <==> levelCritical < v.value <= levelWarning))
    }

    predicate Reached(up: bool, level: real)
      reads this
    {
      value.Real? && if up then value.value >= level else value.value <= level
    }

    /** visit: what it reports is the true aggregate. */
    method Visit(visitor: bool) returns (changed: bool)
      requires Valid()
      modifies this`value, this`recomputeCount, this`lastState, this`reports, this`computedAs, this`computedFrom
      ensures Valid()
      ensures visitor ==> UpToDate() && IsAggregate(computation, value, metrics)
      ensures visitor ==> lastState == GetState() && changed == (lastState != old(lastState))
      ensures visitor ==> IsState(lastState, value)
      ensures reports == old(reports) + if visitor then [MetaStatus(value, changed)] else []
      ensures !visitor ==> !changed && value == old(value)
      ensures recomputeCount == if visitor && old(recomputeCount) >= RECOMPUTE_LIMIT then 0 else old(recomputeCount)
      ensures old(UpToDate()) ==> UpToDate()
    {
      hide IsAggregate;
      changed := false;
      if visitor {
        if recomputeCount >= RECOMPUTE_LIMIT { Recompute(); }
        changed := lastState != GetState();
        lastState := GetState();
        reports := reports + [MetaStatus(value, changed)];
      }
    }

    /** _send_service_status, at the time now: it reports the value as it stands. */
    method SendServiceStatus(visitor: bool, changed: bool, now: int)
      modifies this`lastSent, this`reports
      ensures reports == old(reports) + if visitor && Due(changed, old(lastSent), now)
                                        then [ServiceStatus(value, GetState())] else []
      ensures lastSent == if visitor && Due(changed, old(lastSent), now) then now else old(lastSent)
      ensures IsState(GetState(), value)
    {
      if visitor && Due(changed, lastSent, now) {
        reports := reports + [ServiceStatus(value, GetState())];
        lastSent := now;
      }
    }

    /** metric_update. A metric that takes a new value is followed by a report of the true
        aggregate; one that repeats its value by a report of the value as it stands, which
        is the aggregate of the metrics it was last computed from. */
    method MetricUpdate(m: MetricId, v: real, visitor: bool, now: int)
      requires Valid()
      modifies this`metrics, this`value, this`recomputeCount, this`lastState, this`reports, this`lastSent
      modifies this`computedAs, this`computedFrom
      ensures Valid()
      ensures metrics == if m in old(metrics) then old(metrics)[m := v] else old(metrics)
      ensures m !in old(metrics) ==> reports == old(reports) && value == old(value) && lastSent == old(lastSent)
      ensures m in old(metrics) ==>
                var updated := visitor && old(metrics)[m] != v;
                var changed := updated && lastState != old(lastState);
                reports == old(reports) + (if updated then [MetaStatus(value, changed)] else []) +
                           (if visitor && Due(changed, old(lastSent), now) then [ServiceStatus(value, GetState())] else [])
                && lastSent == if visitor && Due(changed, old(lastSent), now) then now else old(lastSent)
      ensures m in old(metrics) && old(metrics)[m] != v ==> UpToDate() && IsAggregate(computation, value, metrics)
      ensures m in old(metrics) && old(metrics)[m] != v ==>
                && recomputeCount in {0, old(recomputeCount) + 1} && recomputeCount < RECOMPUTE_LIMIT
                && (computation in {Average, Total} ==>
                      recomputeCount == if old(recomputeCount) + 1 < RECOMPUTE_LIMIT then old(recomputeCount) + 1 else 0)
      ensures m in old(metrics) ==> IsState(GetState(), value)
      ensures m !in old(metrics) || old(metrics)[m] == v ==>
                value == old(value) && recomputeCount == old(recomputeCount)
                && computedAs == old(computedAs) && computedFrom == old(computedFrom)
    {
      hide IsAggregate, IsState, GetState;
      if m in metrics {
        var changed := false;
        if metrics[m] != v {
          ghost var before := metrics;
          var oldValue := metrics[m];
          metrics := metrics[m := v];
          recomputeCount := recomputeCount + 1;
          if recomputeCount >= RECOMPUTE_LIMIT {
            Recompute();
          } else {
            RecomputePartial(v, oldValue, m, before);
          }
          changed := Visit(visitor);
        } else {
          assert metrics[m := v] == metrics;
        }
        SendServiceStatus(visitor, changed, now);
      }
    }
  }

  /** Whether a service status is sent. The elapsed time is taken backwards. */
  predicate Due(changed: bool, lastSent: int, now: int) {
    changed || lastSent == -1 || lastSent == 0 || lastSent - now >= 60
  }

  /** Once a status was sent, and as long as the clock does not go back, one is sent on a
      change of state only, and not every minute. */
  lemma DueOnChangeOnly(changed: bool, lastSent: int, now: int)
    requires lastSent != -1 && lastSent != 0 && lastSent <= now
    ensures Due(changed, lastSent, now) <==> changed
  {}

  /** Without a change one is sent when the clock went back a minute or more. */
  lemma DueBackwards(lastSent: int, back: int)
    requires lastSent > 0
    ensures Due(false, lastSent, lastSent - back) <==> back >= 60
  {}

  // --------------------------------------------------- how stale a value is

  /** A change that makes a meta-service stale. */
  datatype Change = Added(metric: MetricId) | Removed(metric: MetricId) | Switched(computation: Computation)

  function ComputationAfter(change: Change, c: Computation): Computation {
    if change.Switched? then change.computation else c
  }

  function MetricsAfter(change: Change, metrics: map<MetricId, real>): map<MetricId, real> {
    match change
    case Added(m) => metrics[m := 0.0]
    case Removed(m) => metrics - {m}
    case Switched(_) => metrics
  }

  /** Another metric has the value too. */
  predicate HasOther(v: real, metrics: map<MetricId, real>, m: MetricId) {
    exists k :: k in metrics && k != m && metrics[k] == v
  }

  ghost predicate AllEqual(metrics: map<MetricId, real>) {
    forall k, l :: k in metrics && l in metrics ==> metrics[k] == metrics[l]
  }

  /** The metrics other than one of the least, or of the greatest, add up to nothing. */
  ghost predicate OthersCancel(least: bool, metrics: map<MetricId, real>) {
    exists m :: m in metrics && Sum(metrics - {m}) == 0.0
      && if least then IsMinimum(metrics[m], metrics) else IsMaximum(metrics[m], metrics)
  }

  /** The value v, right for the metrics before, is right after a metric was added: a new
      one with value 0, or one that was there and is 0 again. */
  predicate RightAfterAdding(c: Computation, v: Num, metrics: map<MetricId, real>, m: MetricId) {
    if m !in metrics then
      match c
      case Total => true
      case Average => v == Real(0.0)
      case Minimum => v.Real? && v.value <= 0.0
      case Maximum => v.Real? && v.value >= 0.0
    else
      match c
      case Total => metrics[m] == 0.0
      case Average => metrics[m] == 0.0
      case Minimum => v.Real? && v.value <= 0.0 && (v.value == 0.0 || HasOther(v.value, metrics, m))
      case Maximum => v.Real? && v.value >= 0.0 && (v.value == 0.0 || HasOther(v.value, metrics, m))
  }

  predicate RightAfterRemoving(c: Computation, v: Num, metrics: map<MetricId, real>, m: MetricId) {
    m in metrics ==>
      match c
      case Total => metrics[m] == 0.0
      case Average => |metrics| > 1 && v == Real(metrics[m])
      case _ => v.Real? && HasOther(v.value, metrics, m)
  }

  ghost predicate RightAfterSwitching(c: Computation, d: Computation, metrics: map<MetricId, real>) {
    if c == d then true
    else if metrics == map[] then c != Total && d != Total
    else if c != Total && d != Total then AllEqual(metrics)
    else if c == Average || d == Average then |metrics| == 1 || Sum(metrics) == 0.0
    else OthersCancel(c == Minimum || d == Minimum, metrics)
  }

  ghost predicate RightAfter(change: Change, c: Computation, v: Num, metrics: map<MetricId, real>) {
    match change
    case Added(m) => RightAfterAdding(c, v, metrics, m)
    case Removed(m) => RightAfterRemoving(c, v, metrics, m)
    case Switched(d) => RightAfterSwitching(c, d, metrics)
  }

  lemma SizeAfter(metrics: map<MetricId, real>, m: MetricId, v: real)
    ensures m !in metrics ==> |metrics[m := v]| == |metrics| + 1
    ensures m in metrics ==> |metrics - {m}| == |metrics| - 1 && |metrics[m := v]| == |metrics|
  {
    assert metrics[m := v].Keys == metrics.Keys + {m};
    assert (metrics - {m}).Keys == metrics.Keys - {m};
  }

  lemma SameQuotient(a: real, b: real, n: nat)
    requires n > 0
    ensures a / n as real == b / n as real <==> a == b
  {
    if a / n as real == b / n as real {
      assert a == a / n as real * n as real && b == b / n as real * n as real;
    }
  }

  lemma OneMore(total: real, n: nat)
    requires n > 0
    ensures total / n as real == total / (n + 1) as real <==> total == 0.0
  {
    var q := total / n as real;
    assert total == q * n as real;
    if q == total / (n + 1) as real {
      assert total == q * (n + 1) as real == q * n as real + q;
    }
  }

  lemma OneLess(total: real, a: real, n: nat)
    requires n > 1
    ensures total / n as real == (total - a) / (n - 1) as real <==> total / n as real == a
  {
    var q := total / n as real;
    assert total == q * n as real == q * (n - 1) as real + q;
    if q == (total - a) / (n - 1) as real {
      assert total - a == q * (n - 1) as real;
    }
  }

  lemma AddingIff(c: Computation, v: Num, metrics: map<MetricId, real>, m: MetricId)
    requires IsAggregate(c, v, metrics)
    ensures IsAggregate(c, v, metrics[m := 0.0]) <==> RightAfterAdding(c, v, metrics, m)
  {
    hide Sum;
    var after := metrics[m := 0.0];
    assert after[m] == 0.0;
    SizeAfter(metrics, m, 0.0);
    if m in metrics { SumReplace(metrics, m, 0.0); } else { SumAdd(metrics, m, 0.0); }
    match c {
      case Total => {}
      case Average => {
        if metrics != map[] {
          if m in metrics {
            SameQuotient(Sum(metrics), Sum(after), |metrics|);
          } else {
            OneMore(Sum(metrics), |metrics|);
            SameQuotient(Sum(metrics), 0.0, |metrics|);
          }
        } else {
          assert metrics.Keys == {};
        }
      }
      case Minimum => { ExtremeAfterAdding(true, v, metrics, m); }
      case Maximum => { ExtremeAfterAdding(false, v, metrics, m); }
    }
  }

  lemma ExtremeAfterAdding(least: bool, v: Num, metrics: map<MetricId, real>, m: MetricId)
    requires var c := if least then Minimum else Maximum; IsAggregate(c, v, metrics)
    ensures var c := if least then Minimum else Maximum;
            IsAggregate(c, v, metrics[m := 0.0]) <==> RightAfterAdding(c, v, metrics, m)
  {
    var after := metrics[m := 0.0];
    assert after[m] == 0.0;
    if v.Real? {
      var k :| k in metrics && metrics[k] == v.value;
      if k != m { assert after[k] == v.value; }
      if HasOther(v.value, metrics, m) {
        var l :| l in metrics && l != m && metrics[l] == v.value;
        assert after[l] == v.value;
      }
      if l :| l in after && after[l] == v.value && l != m { assert metrics[l] == v.value; }
    }
  }

  lemma RemovingIff(c: Computation, v: Num, metrics: map<MetricId, real>, m: MetricId)
    requires IsAggregate(c, v, metrics)
    ensures IsAggregate(c, v, metrics - {m}) <==> RightAfterRemoving(c, v, metrics, m)
  {
    hide Sum;
    var after := metrics - {m};
    if m !in metrics {
      assert after == metrics;
    } else {
      SizeAfter(metrics, m, 0.0);
      SumRemove(metrics, m);
      match c {
        case Total => {}
        case Average => { if |metrics| > 1 { OneLess(Sum(metrics), metrics[m], |metrics|); } }
        case Minimum => { ExtremeAfterRemoving(true, v, metrics, m); }
        case Maximum => { ExtremeAfterRemoving(false, v, metrics, m); }
      }
    }
  }

  lemma ExtremeAfterRemoving(least: bool, v: Num, metrics: map<MetricId, real>, m: MetricId)
    requires var c := if least then Minimum else Maximum; IsAggregate(c, v, metrics)
    requires m in metrics
    ensures var c := if least then Minimum else Maximum;
            IsAggregate(c, v, metrics - {m}) <==> RightAfterRemoving(c, v, metrics, m)
  {
    var after := metrics - {m};
    if HasOther(v.value, metrics, m) {
      var k :| k in metrics && k != m && metrics[k] == v.value;
      assert k in after && after[k] == v.value;
    }
  }

  function Scaled(v: real, n: nat): real { v * n as real }

  /** No average is below the least value, and only that of equal values meets it. */
  lemma {:induction false} SumBounds(metrics: map<MetricId, real>, v: real, least: bool)
    requires forall k :: k in metrics ==> if least then v <= metrics[k] else metrics[k] <= v
    ensures if least then Scaled(v, |metrics|) <= Sum(metrics) else Sum(metrics) <= Scaled(v, |metrics|)
    ensures Sum(metrics) == Scaled(v, |metrics|) <==> forall k :: k in metrics ==> metrics[k] == v
    decreases |metrics|
  {
    hide Sum, Scaled;
    if metrics == map[] {
      NoSum();
      ScaledByNothing(v);
    } else {
      var k :| k in metrics;
      var others := metrics - {k};
      SumRemove(metrics, k);
      SizeAfter(metrics, k, 0.0);
      SumBounds(others, v, least);
      BoundsMore(least, v, metrics[k], |others|, Sum(others));
      AllButOne(metrics, k, v);
    }
  }

  lemma ScaledByNothing(v: real)
    ensures Scaled(v, 0) == 0.0
  {}

  lemma BoundsMore(least: bool, v: real, a: real, n: nat, total: real)
    requires if least then v <= a && Scaled(v, n) <= total else a <= v && total <= Scaled(v, n)
    ensures if least then Scaled(v, n + 1) <= a + total else a + total <= Scaled(v, n + 1)
    ensures a + total == Scaled(v, n + 1) <==> a == v && total == Scaled(v, n)
  {
    assert v * (n + 1) as real == v * n as real + v;
  }

  lemma AllButOne(metrics: map<MetricId, real>, k: MetricId, v: real)
    requires k in metrics
    ensures (forall l :: l in metrics ==> metrics[l] == v) <==>
            metrics[k] == v && forall l :: l in metrics - {k} ==> (metrics - {k})[l] == v
  {
    assert forall l :: l in metrics <==> l == k || l in metrics - {k};
  }

  lemma NoSum()
    ensures Sum<MetricId>(map[]) == 0.0
  {}

  ghost predicate IsExtreme(least: bool, v: real, metrics: map<MetricId, real>) {
    if least then IsMinimum(v, metrics) else IsMaximum(v, metrics)
  }

  lemma ExtremesMeet(least: bool, v: real, metrics: map<MetricId, real>)
    requires IsExtreme(least, v, metrics)
    ensures IsExtreme(!least, v, metrics) <==> AllEqual(metrics)
  {
    var k :| k in metrics && metrics[k] == v;
    if AllEqual(metrics) { assert forall l :: l in metrics ==> metrics[l] == metrics[k]; }
  }

  lemma ExtremeMeetsAverage(least: bool, v: real, metrics: map<MetricId, real>)
    requires metrics != map[]
    ensures IsExtreme(least, v, metrics) ==> (Sum(metrics) == Scaled(v, |metrics|) <==> AllEqual(metrics))
    ensures Sum(metrics) == Scaled(v, |metrics|) ==> (IsExtreme(least, v, metrics) <==> AllEqual(metrics))
  {
    hide Sum, Scaled;
    if IsExtreme(least, v, metrics) { SumBounds(metrics, v, least); }
    if AllEqual(metrics) {
      var k :| k in metrics;
      assert forall l :: l in metrics ==> metrics[l] == metrics[k];
      SumBounds(metrics, metrics[k], least);
      assert Sum(metrics) == Scaled(metrics[k], |metrics|);
      SizeAfter(metrics, k, 0.0);
      if Sum(metrics) == Scaled(v, |metrics|) { SameProduct(v, metrics[k], |metrics|); }
    }
    if IsExtreme(least, v, metrics) && Sum(metrics) == Scaled(v, |metrics|) {
      assert AllEqual(metrics);
    }
  }

  lemma SameProduct(v: real, w: real, n: nat)
    requires n > 0 && Scaled(v, n) == Scaled(w, n)
    ensures v == w
  {}

  lemma ExtremeMeetsTotal(least: bool, v: real, metrics: map<MetricId, real>)
    ensures IsExtreme(least, v, metrics) ==> (v == Sum(metrics) <==> OthersCancel(least, metrics))
    ensures v == Sum(metrics) ==> (IsExtreme(least, v, metrics) <==> OthersCancel(least, metrics))
  {
    hide Sum, IsExtreme, IsMinimum, IsMaximum;
    if IsExtreme(least, v, metrics) {
      var k := ExtremeAt(least, v, metrics);
      SumRemove(metrics, k);
      if v == Sum(metrics) { Cancels(least, metrics, k); }
    }
    if OthersCancel(least, metrics) {
      var m := Cancelled(least, metrics);
      SumRemove(metrics, m);
      if IsExtreme(least, v, metrics) { ExtremeIsUnique(least, v, metrics[m], metrics); }
    }
  }

  lemma ExtremeAt(least: bool, v: real, metrics: map<MetricId, real>) returns (k: MetricId)
    requires IsExtreme(least, v, metrics)
    ensures k in metrics && metrics[k] == v
  {
    k :| k in metrics && metrics[k] == v;
  }

  lemma Cancels(least: bool, metrics: map<MetricId, real>, k: MetricId)
    requires k in metrics && Sum(metrics - {k}) == 0.0 && IsExtreme(least, metrics[k], metrics)
    ensures OthersCancel(least, metrics)
  {
    hide Sum, IsMinimum, IsMaximum;
  }

  lemma Cancelled(least: bool, metrics: map<MetricId, real>) returns (k: MetricId)
    requires OthersCancel(least, metrics)
    ensures k in metrics && Sum(metrics - {k}) == 0.0 && IsExtreme(least, metrics[k], metrics)
  {
    hide Sum, IsMinimum, IsMaximum;
    k :| k in metrics && Sum(metrics - {k}) == 0.0
         && if least then IsMinimum(metrics[k], metrics) else IsMaximum(metrics[k], metrics);
  }

  lemma ExtremeIsUnique(least: bool, v: real, w: real, metrics: map<MetricId, real>)
    requires IsExtreme(least, v, metrics) && IsExtreme(least, w, metrics)
    ensures v == w
  {}

  lemma QuotientIs(total: real, n: nat, v: real)
    requires n > 0
    ensures total / n as real == v <==> total == Scaled(v, n)
  {}

  lemma TotalMeetsAverage(total: real, n: nat)
    requires n > 0
    ensures total == total / n as real <==> n == 1 || total == 0.0
  {
    QuotientIs(total, n, total);
    if n > 1 { assert total * n as real == total + total * (n - 1) as real; }
  }

  /** The aggregates in terms of extremes and sums. */
  lemma AggregateMeans(c: Computation, v: Num, metrics: map<MetricId, real>)
    requires metrics != map[]
    ensures IsAggregate(c, v, metrics) <==>
            v.Real? &&
            match c
            case Total => v.value == Sum(metrics)
            case Average => Sum(metrics) == Scaled(v.value, |metrics|)
            case Minimum => IsExtreme(true, v.value, metrics)
            case Maximum => IsExtreme(false, v.value, metrics)
  {
    hide Sum, Scaled;
    var k :| k in metrics;
    SizeAfter(metrics, k, 0.0);
    if v.Real? { QuotientIs(Sum(metrics), |metrics|, v.value); }
  }

  lemma SwitchingIff(c: Computation, d: Computation, v: Num, metrics: map<MetricId, real>)
    requires IsAggregate(c, v, metrics)
    ensures IsAggregate(d, v, metrics) <==> RightAfterSwitching(c, d, metrics)
  {
    hide Sum, AllEqual, OthersCancel, IsExtreme, Scaled;
    if metrics == map[] {
      NoSum();
    } else {
      hide IsAggregate;
      AggregateMeans(c, v, metrics);
      AggregateMeans(d, v, metrics);
      var k :| k in metrics;
      SizeAfter(metrics, k, 0.0);
      ExtremesMeetBoth(v.value, metrics);
      ExtremeMeetsAverage(true, v.value, metrics);
      ExtremeMeetsAverage(false, v.value, metrics);
      ExtremeMeetsTotal(true, v.value, metrics);
      ExtremeMeetsTotal(false, v.value, metrics);
      TotalMeetsAverage(Sum(metrics), |metrics|);
      QuotientIs(Sum(metrics), |metrics|, v.value);
      QuotientIs(v.value, |metrics|, v.value);
    }
  }

  lemma ExtremesMeetBoth(v: real, metrics: map<MetricId, real>)
    ensures IsExtreme(true, v, metrics) ==> (IsExtreme(false, v, metrics) <==> AllEqual(metrics))
    ensures IsExtreme(false, v, metrics) ==> (IsExtreme(true, v, metrics) <==> AllEqual(metrics))
  {
    hide IsExtreme;
    if IsExtreme(true, v, metrics) { ExtremesMeet(true, v, metrics); }
    if IsExtreme(false, v, metrics) { ExtremesMeet(false, v, metrics); }
  }

  /** Whether the value that was right before a change still is after it, exactly, in terms
      of the value and the metrics before the change. */
  lemma StillRightIff(change: Change, c: Computation, v: Num, metrics: map<MetricId, real>)
    requires IsAggregate(c, v, metrics)
    ensures IsAggregate(ComputationAfter(change, c), v, MetricsAfter(change, metrics))
            <==> RightAfter(change, c, v, metrics)
  {
    hide IsAggregate, RightAfterAdding, RightAfterRemoving, RightAfterSwitching;
    match change {
      case Added(m) => { AddingIff(c, v, metrics, m); }
      case Removed(m) => { RemovingIff(c, v, metrics, m); }
      case Switched(d) => { SwitchingIff(c, d, v, metrics); }
    }
  }

  method Make(meta: Meta, change: Change)
    requires meta.Valid()
    modifies meta`metrics, meta`computation, meta`recomputeCount
    ensures meta.Valid() && meta.recomputeCount == RECOMPUTE_LIMIT
    ensures meta.computation == ComputationAfter(change, old(meta.computation))
    ensures meta.metrics == MetricsAfter(change, old(meta.metrics))
  {
    hide IsAggregate;
    match change {
      case Added(m) => { meta.AddMetric(m); }
      case Removed(m) => { meta.RemoveMetric(m); }
      case Switched(c) => { meta.SetComputation(c); }
    }
  }

  /** A change to a meta-service that is up to date, and then the repeated value of one of
      its metrics: the service status sent then, if one is due, holds the true aggregate if
      and only if the change left the value right. */
  method ReportAfterChange(meta: Meta, change: Change, k: MetricId, now: int)
    requires meta.Valid() && meta.UpToDate() && k in MetricsAfter(change, meta.metrics)
    modifies meta
    ensures meta.Valid() && meta.value == old(meta.value)
    ensures meta.computation == ComputationAfter(change, old(meta.computation))
    ensures meta.metrics == MetricsAfter(change, old(meta.metrics))
    ensures meta.reports == old(meta.reports) + if Due(false, old(meta.lastSent), now)
                                                then [ServiceStatus(meta.value, meta.GetState())] else []
    ensures IsAggregate(meta.computation, meta.value, meta.metrics) <==>
            RightAfter(change, old(meta.computation), old(meta.value), old(meta.metrics))
  {
    hide IsAggregate, RightAfter;
    StillRightIff(change, meta.computation, meta.value, meta.metrics);
    Make(meta, change);
    ghost var metrics := meta.metrics;
    meta.MetricUpdate(k, meta.metrics[k], true, now);
    assert metrics[k := metrics[k]] == metrics;
    assert old(meta.reports) + [] == old(meta.reports);
  }

  /** Only the reports of `visit` can always be relied on: a fresh meta-service whose first metric
      is updated to the value it starts with reports no number, though the average is 0. */
  method StaleReport(now: int) returns (meta: Meta)
    ensures fresh(meta) && meta.metrics == map[7 := 0.0] && |meta.reports| == 1
    ensures meta.reports[0] == ServiceStatus(NaN, UnknownState)
    ensures !IsAggregate(Average, meta.reports[0].value, meta.metrics)
  {
    meta := new Meta();
    meta.AddMetric(7);
    meta.MetricUpdate(7, 0.0, true, now);
    assert meta.metrics == map[7 := 0.0];
    assert |meta.metrics| == 1;
  }
}

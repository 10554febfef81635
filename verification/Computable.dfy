/** bam/src/computable.cc and the nodes of the computation graph of BAM: boolean
    services, constants, operators and expressions, KPIs and business activities (BA).
    Some nodes cache what they last read from their children; `propagate_update` has to
    leave every cache current. */
module Computable {
  import opened Options

  /** A double, as far as these nodes tell doubles apart. */
  datatype Num = Real(value: real) | NaN

  datatype Arith = Addition | Subtraction | Multiplication | Division | Modulo

  datatype BinKind =
    | AndNode | OrNode | XorNode | EqualNode | NotEqualNode
    | MoreThan(strict: bool) | LessThan(strict: bool)
    | Operation(arith: Arith)

  datatype Kind =
    | Constant(number: Num)              // bool_constant
    | Service(host: nat, service: nat)   // bool_service
    | NotNode                            // bool_not
    | Binary(op: BinKind)                // bool_binary_operator and its subclasses
    | Expression(impactIf: bool)         // bool_expression
    | ExpressionKpi(impact: real)        // kpi_boolexp
    | ServiceKpi                         // kpi_service
    | ActivityKpi(warning: real, critical: real)  // kpi_ba
    | Activity(ignores: bool)            // ba; in worst or best mode it may ignore KPIs in downtime

  datatype State = OkState | WarningState | CriticalState | UnknownState

  datatype Impact = Impact(nominal: real, acknowledgement: real, downtime: real, state: State)

  /** What a BA keeps about a KPI: ba::impact_info. */
  datatype ImpactInfo = ImpactInfo(hard: Impact, soft: Impact, inDowntime: bool)

  /** What a BA shows to the KPIs built on it. */
  datatype View = View(hard: State, soft: State, ackHard: real, ackSoft: real,
                       downtimeHard: real, downtimeSoft: real, inDowntime: bool)

  datatype ServiceState = ServiceState(hard: real, soft: real, known: bool, inDowntime: bool)

  const EPSILON: real := 0.0001

  // ------------------------------------------------------------ arithmetic

  function Bool(b: bool): Num { Real(if b then 1.0 else 0.0) }

  /** A double used as a condition. */
  predicate Truthy(n: Num) { n.Real? ==> n.value != 0.0 }

  function Abs(r: real): real { if r < 0.0 then -r else r }

  function Truncate(r: real): int { if r < 0.0 then -((-r).Floor) else r.Floor }

  /** The remainder of C++: it has the sign of the dividend. */
  function Remainder(a: int, b: int): (r: int)
    requires b != 0
    ensures (if b < 0 then b else -b) < r < (if b < 0 then -b else b)
    ensures a >= 0 ==> r >= 0
    ensures a <= 0 ==> r <= 0
  {
    var m := if b < 0 then -b else b;
    if a < 0 then -((-a) % m) else a % m
  }

  function Compute(arith: Arith, l: Num, r: Num): Num {
    if l.NaN? || r.NaN? then NaN
    else
      match arith
      case Addition => Real(l.value + r.value)
      case Subtraction => Real(l.value - r.value)
      case Multiplication => Real(l.value * r.value)
      case Division => if Abs(r.value) < EPSILON then NaN else Real(l.value / r.value)
      case Modulo =>
        var divisor := Truncate(r.value);
        if divisor == 0 then NaN else Real(Remainder(Truncate(l.value), divisor) as real)
  }

  /** The value_hard() of a binary operator with these operand values. */
  function Combine(op: BinKind, l: Num, r: Num): Num {
    var both := l.Real? && r.Real?;
    match op
    case AndNode => Bool(Truthy(l) && Truthy(r))
    case OrNode => Bool(Truthy(l) || Truthy(r))
    case XorNode => Bool(Truthy(l) != Truthy(r))
    case EqualNode => Bool(both && Abs(l.value - r.value) < EPSILON)
    case NotEqualNode => Bool(both && Abs(l.value - r.value) >= EPSILON)
    case MoreThan(strict) => Bool(both && (l.value > r.value || (!strict && l.value == r.value)))
    case LessThan(strict) => Bool(both && (l.value < r.value || (!strict && l.value == r.value)))
    case Operation(arith) => Compute(arith, l, r)
  }

  /** The != of doubles. */
  predicate Differ(a: Num, b: Num) { a.NaN? || b.NaN? || a != b }

  predicate TooSmall(n: Num) { n.Real? && Abs(n.value) < EPSILON }

  // ------------------------------------------------------------------ nodes

  /** What a node stores about others: the operand values of a binary operator, the
      status of the event a kpi_boolexp has open, the impacts a BA has applied and what
      it made of them. The flags _state_known and _in_downtime of a binary operator are
      left out: they are written but decide nothing. */
  datatype Cache = Cache(leftHard: Num, leftSoft: Num, rightHard: Num, rightSoft: Num,
                         event: Option<State>,
                         impacts: map<Node, ImpactInfo>, view: View)

  /** The operand values a binary operator stores when a child reports its values. */
  function Taken(c: Cache, isLeft: bool, isRight: bool, hard: Num, soft: Num): Cache {
    if isLeft then
      if Differ(c.leftHard, hard) || Differ(c.leftSoft, soft) then c.(leftHard := hard, leftSoft := soft) else c
    else if isRight then
      if Differ(c.rightHard, hard) || !Differ(c.rightSoft, soft) then c.(rightHard := hard, rightSoft := soft) else c
    else c
  }

  /** Hard values are taken over exactly, as long as the child stands on one side only;
      a child on both sides leaves the right value as it was. The soft value of the right
      operand is taken over unless it changed while the hard value did not. */
  lemma TakenExactly(c: Cache, isLeft: bool, isRight: bool, hard: Num, soft: Num)
    ensures var t := Taken(c, isLeft, isRight, hard, soft);
            && (isLeft ==> t.leftHard == hard && t.leftSoft == soft)
            && (isRight ==> (t.rightHard == hard <==> !isLeft || c.rightHard == hard))
            && (isRight && !isLeft ==>
                  (t.rightSoft == soft <==> Differ(c.rightHard, hard) || c.rightSoft == soft))
            && (!isLeft ==> t.leftHard == c.leftHard && t.leftSoft == c.leftSoft)
            && (!isRight ==> t.rightHard == c.rightHard && t.rightSoft == c.rightSoft)
            && t.impacts == c.impacts && t.view == c.view && t.event == c.event
  {}

  predicate IsBool(k: Kind) { k.Constant? || k.Service? || k.NotNode? || k.Binary? }

  predicate IsKpi(k: Kind) { k.ExpressionKpi? || k.ServiceKpi? || k.ActivityKpi? }

  /** n is wired as its kind requires, inside S, to lower children that know it. */
  ghost predicate Wired(n: Node, S: set<Node>)
    reads S
    requires n in S
  {
    && (n.left != null ==> n.left in S && n.left.rank < n.rank && n in n.left.parents)
    && (n.right != null ==> n.right in S && n.right.rank < n.rank && n in n.right.parents)
    && (forall k :: k in n.kpis ==> k in S && k.rank < n.rank && n in k.parents && IsKpi(k.kind))
    && (forall p :: p in n.parents ==> p in S && n.rank < p.rank)
    && (n.kind.NotNode? || n.kind.Expression? ==> n.left != null && IsBool(n.left.kind))
    && (n.kind.Binary? ==> n.left != null && n.right != null && n.left != n.right)
    && (n.kind.Binary? ==> IsBool(n.left.kind) && IsBool(n.right.kind))
    && (n.kind.ExpressionKpi? ==> n.left != null && n.left.kind.Expression?)
    && (n.kind.ActivityKpi? ==> n.left != null && n.left.kind.Activity?)
    && (!n.kind.Binary? ==> n.right == null)
    && (!n.kind.Activity? ==> n.kpis == {})
    && (n.kind.Activity? || n.kind.Constant? || n.kind.Service? || n.kind.ServiceKpi? ==> n.left == null)
    && (n.kind.Activity? ==> n.cache.impacts.Keys == n.kpis)
  }

  ghost predicate Graph(S: set<Node>)
    reads S
  {
    forall n :: n in S ==> Wired(n, S)
  }

  // --------------------------------------------------- what a node shows now

  function Hard(n: Node, ghost S: set<Node>): Num
    requires Graph(S) && n in S && IsBool(n.kind)
    reads S
    decreases n.rank
  {
    match n.kind
    case Constant(number) => number
    case Service(_, _) => Real(n.service.hard)
    case NotNode => Bool(!Truthy(Hard(n.left, S)))
    case Binary(op) => Combine(op, n.cache.leftHard, n.cache.rightHard)
  }

  function Soft(n: Node, ghost S: set<Node>): Num
    requires Graph(S) && n in S && IsBool(n.kind)
    reads S
    decreases n.rank
  {
    match n.kind
    case Constant(number) => number
    case Service(_, _) => Real(n.service.soft)
    case NotNode => Bool(!Truthy(Soft(n.left, S)))
    case Binary(op) => Combine(op, n.cache.leftSoft, n.cache.rightSoft)
  }

  predicate Known(n: Node, ghost S: set<Node>)
    requires Graph(S) && n in S && IsBool(n.kind)
    reads S
    decreases n.rank
  {
    match n.kind
    case Constant(_) => true
    case Service(_, _) => n.service.known
    case NotNode => Known(n.left, S)
    case Binary(op) =>
      && Known(n.left, S) && Known(n.right, S)
      && !(op.Operation? && op.arith in {Division, Modulo} &&
           (TooSmall(n.cache.rightHard) || TooSmall(n.cache.rightSoft)))
  }

  predicate InDowntime(n: Node, ghost S: set<Node>)
    requires Graph(S) && n in S && IsBool(n.kind)
    reads S
    decreases n.rank
  {
    match n.kind
    case Constant(_) => false
    case Service(_, _) => n.service.inDowntime
    case NotNode => InDowntime(n.left, S)
    case Binary(_) => InDowntime(n.left, S) || InDowntime(n.right, S)
  }

  /** bool_expression::get_state. */
  function ExpressionState(n: Node, ghost S: set<Node>): State
    requires Graph(S) && n in S && n.kind.Expression?
    reads S
  {
    if Hard(n.left, S) == Bool(n.kind.impactIf) then CriticalState else OkState
  }

  /** kpi_boolexp::_get_state: an unknown expression keeps the state of the open event. */
  function KpiState(n: Node, ghost S: set<Node>): State
    requires Graph(S) && n in S && n.kind.ExpressionKpi?
    reads S
  {
    if Known(n.left.left, S) || n.cache.event.None? then ExpressionState(n.left, S) else n.cache.event.value
  }

  function Share(percent: real, nominal: real): real {
    (if percent < 0.0 then 0.0 else if percent > 100.0 then 100.0 else percent) * nominal / 100.0
  }

  /** kpi_ba::_fill_impact. */
  function ActivityImpact(k: Kind, state: State, ack: real, downtime: real): Impact
    requires k.ActivityKpi?
  {
    var nominal := match state case OkState => 0.0 case WarningState => k.warning case _ => k.critical;
    Impact(nominal, Share(ack, nominal), Share(downtime, nominal), state)
  }

  /** The in_downtime of a KPI. */
  predicate KpiDowntime(k: Node, ghost S: set<Node>)
    requires Graph(S) && k in S && IsKpi(k.kind)
    reads S
  {
    match k.kind
    case ServiceKpi => k.info.inDowntime
    case ExpressionKpi(_) => InDowntime(k.left.left, S)
    case ActivityKpi(_, _) => k.left.cache.view.inDowntime
  }

  /** What a BA shows now: one that ignores KPIs in downtime is OK if all of them are, and
      asks the KPIs themselves for it, not what it caches about them. */
  function Shown(n: Node, ghost S: set<Node>): View
    requires Graph(S) && n in S && n.kind.Activity?
    reads S
  {
    var v := n.cache.view;
    if n.kind.ignores && n.kpis != {} && forall k :: k in n.kpis ==> KpiDowntime(k, S)
    then v.(hard := OkState) else v
  }

  /** The impact a KPI has on its BA now. */
  function Info(n: Node, ghost S: set<Node>): ImpactInfo
    requires Graph(S) && n in S && IsKpi(n.kind)
    reads S
  {
    match n.kind
    case ServiceKpi => n.info
    case ExpressionKpi(impact) =>
      var state := KpiState(n, S);
      var i := Impact(if state.OkState? then 0.0 else impact, 0.0, 0.0, state);
      ImpactInfo(i, i, KpiDowntime(n, S))
    case ActivityKpi(_, _) =>
      var v := Shown(n.left, S);
      ImpactInfo(ActivityImpact(n.kind, v.hard, v.ackHard, v.downtimeHard),
                 ActivityImpact(n.kind, v.soft, v.ackSoft, v.downtimeSoft), KpiDowntime(n, S))
  }

  // -------------------------------------------------------------- coherence

  /** A BA that asks its KPIs for their downtimes may be told something else than what the
      impact it applied last says. */
  ghost predicate Unseen(n: Node, S: set<Node>)
    requires Graph(S) && n in S
    reads S
  {
    && n.kind.Activity? && n.kind.ignores
    && exists k :: k in n.kpis && n.cache.impacts[k].inDowntime != KpiDowntime(k, S)
  }

  /** n may show something else since the nodes of D changed: it is one of them, or it
      reads through to one of them, or to a downtime that it was not told of. */
  ghost predicate Stale(n: Node, S: set<Node>, D: set<Node>)
    requires Graph(S) && n in S
    reads S
    decreases n.rank
  {
    || n in D
    || (n.left != null && Stale(n.left, S, D))
    || (n.right != null && Stale(n.right, S, D))
    || Unseen(n, S)
  }

  /** What n caches of c is what c shows. */
  ghost predicate Current(n: Node, c: Node, S: set<Node>)
    requires Graph(S) && n in S && c in S
    reads S
  {
    && (n.kind.Binary? && c == n.left ==> n.cache.leftHard == Hard(c, S))
    && (n.kind.Binary? && c == n.right ==> n.cache.rightHard == Hard(c, S))
    && (c in n.kpis ==> n.cache.impacts[c] == Info(c, S))
  }

  /** Every cache in the graph is current, except about nodes that D makes stale. */
  ghost predicate Coherent(S: set<Node>, D: set<Node>)
    requires Graph(S)
    reads S
  {
    forall n, c :: n in S && c in S && !Stale(c, S, D) ==> Current(n, c, S)
  }

  /** No BA takes a KPI for being in downtime whose own BA, one higher than `low`, is not:
      the downtimes of those BAs only begin while an update propagates. */
  ghost predicate NoneEnded(S: set<Node>, low: nat)
    requires Graph(S)
    reads S
  {
    forall n, k :: n in S && k in n.kpis ==> NotEnded(n, k, S, low)
  }

  ghost predicate NotEnded(n: Node, k: Node, S: set<Node>, low: nat)
    requires Graph(S) && n in S && k in n.kpis
    reads S
  {
    k.kind.ActivityKpi? && low < k.left.rank && n.cache.impacts[k].inDowntime ==> k.left.cache.view.inDowntime
  }

  // ----------------------------------------------- what a change cannot reach

  /** Only caches, service states and KPI impacts of nodes of D differ from before. */
  twostate predicate OnlyChanged(new S: set<Node>, new D: set<Node>)
    requires old(allocated(S))
    reads S
  {
    forall n :: n in S ==>
      && n.left == old(n.left) && n.right == old(n.right)
      && n.kpis == old(n.kpis) && n.parents == old(n.parents)
      && (n !in D ==> n.cache == old(n.cache) && n.service == old(n.service) && n.info == old(n.info))
  }

  /** Only caches of nodes of C differ from before. */
  twostate predicate OnlyCaches(new S: set<Node>, new C: set<Node>)
    requires old(allocated(S))
    reads S
  {
    OnlyChanged(S, C) && forall n :: n in S ==> n.service == old(n.service) && n.info == old(n.info)
  }

  /** c shows what it showed before. */
  twostate predicate Same(new c: Node, new S: set<Node>)
    requires old(allocated(S))
    requires c in S
    requires old(Graph(S))
    requires Graph(S)
    reads S
  {
    && (IsBool(c.kind) ==> Hard(c, S) == old(Hard(c, S)) && Soft(c, S) == old(Soft(c, S)))
    && (IsKpi(c.kind) ==> Info(c, S) == old(Info(c, S)))
  }

  twostate lemma {:induction false} BoolDowntimeKept(new n: Node, new S: set<Node>, new C: set<Node>)
    requires old(allocated(S))
    requires n in S && IsBool(n.kind)
    requires old(Graph(S))
    requires Graph(S)
    requires OnlyCaches(S, C)
    ensures InDowntime(n, S) == old(InDowntime(n, S))
    decreases n.rank
  {
    if n.left != null { BoolDowntimeKept(n.left, S, C); }
    if n.right != null { BoolDowntimeKept(n.right, S, C); }
  }

  /** Downtimes are kept by the services, the service KPIs and the BAs. */
  twostate lemma {:induction false} DowntimeKept(new k: Node, new S: set<Node>, new C: set<Node>)
    requires old(allocated(S))
    requires k in S && IsKpi(k.kind)
    requires old(Graph(S))
    requires Graph(S)
    requires OnlyCaches(S, C)
    requires k.kind.ActivityKpi? ==> k.left !in C
    ensures KpiDowntime(k, S) == old(KpiDowntime(k, S))
  {
    hide InDowntime;
    if k.kind.ExpressionKpi? { BoolDowntimeKept(k.left.left, S, C); }
  }

  /** A downtime that began and was not told of did not end since. */
  twostate lemma {:induction false} StillUntold(new n: Node, new k: Node, new S: set<Node>, new p: Node, low: nat)
    requires old(allocated(S)) && p in S && n in S && k in S && n != p && low < p.rank
    requires old(Graph(S))
    requires Graph(S)
    requires OnlyCaches(S, {p}) && k in n.kpis && k.kind.ActivityKpi? && k.left == p
    requires old(p.cache.view.inDowntime) ==> p.cache.view.inDowntime
    requires old(NotEnded(n, k, S, low))
    requires old(n.cache.impacts[k].inDowntime != KpiDowntime(k, S))
    ensures n.cache.impacts[k].inDowntime != KpiDowntime(k, S)
  {
    hide InDowntime;
  }

  /** A BA with a downtime to be told of still has it to be told of after p changed: the
      downtimes of other BAs do not end. */
  twostate lemma {:induction false} UnseenStays(new n: Node, new S: set<Node>, new p: Node, low: nat)
    requires old(allocated(S)) && p in S && n in S && n != p && low < p.rank
    requires old(Graph(S))
    requires Graph(S)
    requires OnlyCaches(S, {p})
    requires old(p.cache.view.inDowntime) ==> p.cache.view.inDowntime
    requires old(NoneEnded(S, low))
    requires old(Unseen(n, S))
    ensures Unseen(n, S)
  {
    hide KpiDowntime, Wired, NotEnded;
    KpisOf(n, S);
    var k :| k in n.kpis && old(n.cache.impacts[k].inDowntime != KpiDowntime(k, S));
    if k.kind.ActivityKpi? && k.left == p {
      StillUntold(n, k, S, p, low);
    } else {
      DowntimeKept(k, S, {p});
    }
  }

  twostate lemma {:induction false} StaleStays(new n: Node, new S: set<Node>, new D: set<Node>, new p: Node, low: nat)
    requires old(allocated(S)) && old(allocated(D)) && p in S && n in S && low < p.rank
    requires old(Graph(S))
    requires Graph(S)
    requires OnlyCaches(S, {p})
    requires old(p.cache.view.inDowntime) ==> p.cache.view.inDowntime
    requires old(NoneEnded(S, low))
    requires old(Stale(n, S, D))
    ensures Stale(n, S, D + {p})
    decreases n.rank
  {
    hide Unseen, NoneEnded;
    if n !in D + {p} {
      if n.left != null && old(Stale(n.left, S, D)) {
        StaleStays(n.left, S, D, p, low);
      } else if n.right != null && old(Stale(n.right, S, D)) {
        StaleStays(n.right, S, D, p, low);
      } else {
        UnseenStays(n, S, p, low);
      }
    }
  }

  twostate lemma {:induction false} BoolKept(new n: Node, new S: set<Node>, new D: set<Node>)
    requires old(allocated(S))
    requires n in S
    requires old(Graph(S))
    requires Graph(S)
    requires OnlyChanged(S, D)
    requires !Stale(n, S, D) && IsBool(n.kind)
    ensures Hard(n, S) == old(Hard(n, S))
    ensures Soft(n, S) == old(Soft(n, S))
    ensures Known(n, S) == old(Known(n, S))
    ensures InDowntime(n, S) == old(InDowntime(n, S))
    decreases n.rank
  {
    if n.left != null { BoolKept(n.left, S, D); }
    if n.right != null { BoolKept(n.right, S, D); }
  }

  /** An expression KPI reads through its expression. */
  twostate lemma {:induction false} ExpressionInfoKept(new n: Node, new S: set<Node>, new D: set<Node>)
    requires old(allocated(S))
    requires n in S
    requires old(Graph(S))
    requires Graph(S)
    requires OnlyChanged(S, D)
    requires !Stale(n, S, D) && n.kind.ExpressionKpi?
    ensures Info(n, S) == old(Info(n, S))
  {
    hide Hard, Soft, Known, InDowntime, Combine, Compute, ActivityImpact, Bool;
    BoolKept(n.left.left, S, D);
    assert KpiState(n, S) == old(KpiState(n, S));
  }

  /** A BA that was told of all downtimes before and after shows what it showed before. */
  twostate lemma {:induction false} ShownKept(new n: Node, new S: set<Node>)
    requires old(allocated(S))
    requires n in S && n.kind.Activity?
    requires old(Graph(S))
    requires Graph(S)
    requires n.cache == old(n.cache) && n.kpis == old(n.kpis)
    requires !Unseen(n, S) && !old(Unseen(n, S))
    ensures Shown(n, S) == old(Shown(n, S))
  {
    hide KpiDowntime;
    if n.kind.ignores {
      forall k | k in n.kpis ensures KpiDowntime(k, S) == old(KpiDowntime(k, S)) {
        assert n.cache.impacts[k].inDowntime == KpiDowntime(k, S);
      }
    }
  }

  /** A node that neither was stale nor is shows what it showed before. */
  twostate lemma {:induction false} NotStaleIsSame(new n: Node, new S: set<Node>, new C: set<Node>, new D: set<Node>)
    requires old(allocated(S)) && old(allocated(D))
    requires n in S
    requires old(Graph(S))
    requires Graph(S)
    requires OnlyChanged(S, C)
    requires !Stale(n, S, C) && !old(Stale(n, S, D))
    ensures Same(n, S)
  {
    hide Hard, Soft, Known, InDowntime, KpiState, ActivityImpact, Shown, Unseen;
    if IsBool(n.kind) {
      BoolKept(n, S, C);
    } else if n.kind.ExpressionKpi? {
      ExpressionInfoKept(n, S, C);
    } else if n.kind.ActivityKpi? {
      ShownKept(n.left, S);
    }
  }

  /** What the nodes of D can make stale lies above them, as long as no BA is in between. */
  lemma StaleIsHigher(n: Node, S: set<Node>, D: set<Node>, low: nat)
    requires Graph(S) && n in S && Stale(n, S, D)
    requires !n.kind.Activity? && !n.kind.ActivityKpi?
    requires forall d :: d in D ==> low < d.rank
    ensures low < n.rank
    decreases n.rank
  {
    if n !in D {
      if n.left != null && Stale(n.left, S, D) {
        StaleIsHigher(n.left, S, D, low);
      } else {
        StaleIsHigher(n.right, S, D, low);
      }
    }
  }

  /** A cache is out of reach for what lies below. */
  twostate lemma {:induction false} LowerIsSame(new p: Node, new c: Node, new S: set<Node>)
    requires old(allocated(S)) && p in S && c in S && c.rank < p.rank
    requires old(Graph(S))
    requires Graph(S)
    requires OnlyCaches(S, {p})
    ensures Same(c, S)
  {
    hide Hard, Soft, Known, InDowntime, KpiState, ActivityImpact, Shown, Unseen, Stale;
    if IsBool(c.kind) || c.kind.ExpressionKpi? {
      if Stale(c, S, {p}) { StaleIsHigher(c, S, {p}, c.rank); }
      if IsBool(c.kind) { BoolKept(c, S, {p}); } else { ExpressionInfoKept(c, S, {p}); }
    } else if c.kind.ActivityKpi? {
      LowerShownIsSame(p, c.left, S);
      DowntimeKept(c, S, {p});
    }
  }

  twostate lemma {:induction false} LowerShownIsSame(new p: Node, new b: Node, new S: set<Node>)
    requires old(allocated(S)) && p in S && b in S && b.rank < p.rank && b.kind.Activity?
    requires old(Graph(S))
    requires Graph(S)
    requires OnlyCaches(S, {p})
    ensures Shown(b, S) == old(Shown(b, S))
  {
    hide KpiDowntime, Wired;
    KpisOf(b, S);
    forall k | k in b.kpis ensures KpiDowntime(k, S) == old(KpiDowntime(k, S)) {
      if k.kind.ActivityKpi? { ActivityOf(k, S); }
      DowntimeKept(k, S, {p});
    }
  }

  lemma StaleMonotone(n: Node, S: set<Node>, D: set<Node>, E: set<Node>)
    requires Graph(S) && n in S && Stale(n, S, D) && D <= E
    ensures Stale(n, S, E)
    decreases n.rank
  {
    if n !in D {
      if n.left != null && Stale(n.left, S, D) {
        StaleMonotone(n.left, S, D, E);
      } else if n.right != null && Stale(n.right, S, D) {
        StaleMonotone(n.right, S, D, E);
      }
    }
  }

  lemma CoherentMonotone(S: set<Node>, D: set<Node>, E: set<Node>)
    requires Graph(S) && Coherent(S, D) && D <= E
    ensures Coherent(S, E)
  {
    forall n, c | n in S && c in S && !Stale(c, S, E) ensures Current(n, c, S) {
      if Stale(c, S, D) { StaleMonotone(c, S, D, E); }
    }
  }

  // ------------------------------------------------------------ propagation

  /** The parents a first loop flagged. */
  ghost function Flagged(parents: seq<Node>, filter: seq<bool>): set<Node>
    requires |filter| <= |parents|
  {
    set j | 0 <= j < |filter| && filter[j] :: parents[j]
  }

  lemma FlaggedNone(parents: seq<Node>)
    ensures Flagged(parents, []) == {}
  {}

  lemma FlaggedGrows(parents: seq<Node>, filter: seq<bool>, c: bool)
    requires |filter| < |parents|
    ensures Flagged(parents, filter + [c]) ==
            Flagged(parents, filter) + if c then {parents[|filter|]} else {}
  {
    var more := filter + [c];
    forall n | n in Flagged(parents, filter) ensures n in Flagged(parents, more) {
      var j :| 0 <= j < |filter| && filter[j] && parents[j] == n;
      assert more[j];
    }
    if c { assert more[|filter|]; }
  }

  lemma FlaggedHolds(parents: seq<Node>, filter: seq<bool>)
    requires |filter| == |parents|
    ensures forall j :: 0 <= j < |filter| && filter[j] ==> parents[j] in Flagged(parents, filter)
  {}

  lemma ParentsOf(n: Node, S: set<Node>)
    requires Graph(S) && n in S
    ensures forall j :: 0 <= j < |n.parents| ==> n.parents[j] in S && n.rank < n.parents[j].rank
  {}

  /** What m caches of c is what it cached before. */
  twostate predicate EntryKept(new m: Node, new c: Node)
    requires old(allocated(m)) && old(allocated(c))
    reads m
  {
    && (m.kind.Binary? && c == m.left ==> m.cache.leftHard == old(m.cache.leftHard))
    && (m.kind.Binary? && c == m.right ==> m.cache.rightHard == old(m.cache.rightHard))
    && (m.kind.Activity? && c in m.kpis && c in m.cache.impacts ==>
          c in old(m.cache.impacts) && m.cache.impacts[c] == old(m.cache.impacts[c]))
  }

  /** An entry stays current when neither it nor what it is about changed. */
  twostate lemma {:induction false} CurrentKept(new m: Node, new c: Node, new S: set<Node>, new C: set<Node>)
    requires old(allocated(S)) && m in S && c in S
    requires old(Graph(S))
    requires Graph(S)
    requires OnlyChanged(S, C)
    requires EntryKept(m, c)
    requires Same(c, S) && old(Current(m, c, S))
    ensures Current(m, c, S)
  {
    hide Hard, Soft, Info, Known, InDowntime, Stale;
    if m.kind.Binary? { OperandsOf(m, S); }
    KpisOf(m, S);
  }

  /** One notification: p took in what n shows. Whatever became stale is read through p. */
  twostate lemma {:induction false} Notified(new p: Node, new n: Node, new S: set<Node>, new D: set<Node>, low: nat)
    requires old(allocated(S)) && old(allocated(D)) && p in S && n in S && low < p.rank
    requires old(Graph(S))
    requires Graph(S)
    requires OnlyCaches(S, {p})
    requires old(p.cache.view.inDowntime) ==> p.cache.view.inDowntime
    requires Current(p, n, S)
    requires forall c :: c in S && c != n ==> EntryKept(p, c)
    requires old(Coherent(S, D)) && old(NoneEnded(S, low))
    ensures Coherent(S, D + {p})
  {
    hide Current, Wired, Stale, NoneEnded, Same;
    forall m, c | m in S && c in S && !Stale(c, S, D + {p}) ensures Current(m, c, S) {
      if old(Stale(c, S, D)) { StaleStays(c, S, D, p, low); }
      if Stale(c, S, {p}) { StaleMonotone(c, S, {p}, D + {p}); }
      NotStaleIsSame(c, S, {p}, D);
      if m != p || c != n { CurrentKept(m, c, S, {p}); }
    }
  }

  lemma ToldDowntime(p: Node, k: Node, S: set<Node>)
    requires Graph(S) && p in S && k in p.kpis && Current(p, k, S)
    ensures p.cache.impacts[k].inDowntime == KpiDowntime(k, S)
  {
    hide Hard, Soft, Known, InDowntime, KpiState, ActivityImpact, Shown;
  }

  /** A BA that took in what n shows has it right whether n is in downtime. */
  twostate lemma {:induction false} NoneEndedKept(new p: Node, new n: Node, new S: set<Node>, low: nat)
    requires old(allocated(S)) && p in S && n in S && low < p.rank
    requires old(Graph(S))
    requires Graph(S)
    requires OnlyCaches(S, {p})
    requires old(p.cache.view.inDowntime) ==> p.cache.view.inDowntime
    requires Current(p, n, S)
    requires forall c :: c in S && c != n ==> EntryKept(p, c)
    requires old(NoneEnded(S, low))
    ensures NoneEnded(S, low)
  {
    hide Current, NotEnded, Wired;
    forall m, k | m in S && k in m.kpis ensures NotEnded(m, k, S, low) {
      KpisOf(m, S);
      if m == p && k == n {
        KpisOf(p, S);
        ToldIsNotEnded(p, n, S, low);
      } else {
        NotEndedKept(m, k, S, p, low);
      }
    }
  }

  lemma ToldIsNotEnded(p: Node, k: Node, S: set<Node>, low: nat)
    requires Graph(S) && p in S && k in p.kpis && Current(p, k, S)
    ensures NotEnded(p, k, S, low)
  {
    hide Current;
    ToldDowntime(p, k, S);
  }

  twostate lemma {:induction false} NotEndedKept(new m: Node, new k: Node, new S: set<Node>, new p: Node, low: nat)
    requires old(allocated(S)) && p in S && m in S && k in S && k in m.kpis
    requires old(Graph(S))
    requires Graph(S)
    requires OnlyChanged(S, {p}) && EntryKept(m, k)
    requires k.kind.ActivityKpi? && k.left == p && low < p.rank ==>
               (old(p.cache.view.inDowntime) ==> p.cache.view.inDowntime)
    requires old(NotEnded(m, k, S, low))
    ensures NotEnded(m, k, S, low)
  {}

  /** Nothing was told: the caches are as they were. */
  twostate lemma {:induction false} NothingChanged(new S: set<Node>, new D: set<Node>, low: nat)
    requires old(allocated(S)) && old(allocated(D))
    requires old(Graph(S))
    requires Graph(S)
    requires OnlyCaches(S, {})
    requires old(Coherent(S, D)) && old(NoneEnded(S, low))
    ensures Coherent(S, D) && NoneEnded(S, low)
  {
    hide Current, Stale, Wired, NotEnded;
    forall m, c | m in S && c in S && !Stale(c, S, D) ensures Current(m, c, S) {
      StaleAsBefore(c, S, D);
      if Stale(c, S, {}) { StaleMonotone(c, S, {}, D); }
      NotStaleIsSame(c, S, {}, D);
      CurrentKept(m, c, S, {});
    }
    forall m, k | m in S && k in m.kpis ensures NotEnded(m, k, S, low) {
      KpisOf(m, S);
      NotEndedAsBefore(m, k, S, low);
    }
  }

  twostate lemma {:induction false} NotEndedAsBefore(new m: Node, new k: Node, new S: set<Node>, low: nat)
    requires old(allocated(S)) && m in S && k in S && k in m.kpis
    requires old(Graph(S))
    requires Graph(S)
    requires OnlyCaches(S, {})
    requires old(NotEnded(m, k, S, low))
    ensures NotEnded(m, k, S, low)
  {}

  twostate lemma {:induction false} StaleAsBefore(new n: Node, new S: set<Node>, new D: set<Node>)
    requires old(allocated(S)) && old(allocated(D)) && n in S
    requires old(Graph(S))
    requires Graph(S)
    requires OnlyCaches(S, {})
    ensures Stale(n, S, D) == old(Stale(n, S, D))
    decreases n.rank
  {
    hide KpiDowntime;
    if n.left != null { StaleAsBefore(n.left, S, D); }
    if n.right != null { StaleAsBefore(n.right, S, D); }
    forall k | k in n.kpis ensures KpiDowntime(k, S) == old(KpiDowntime(k, S)) { DowntimeKept(k, S, {}); }
  }

  /** After one node changed, and nothing that it caches, only what reads through to it
      can be cached wrongly. */
  twostate lemma {:induction false} RootChanged(new n: Node, new S: set<Node>)
    requires old(allocated(S)) && n in S
    requires old(Graph(S))
    requires Graph(S)
    requires OnlyChanged(S, {n})
    requires forall c :: c in S ==> EntryKept(n, c)
    requires old(Coherent(S, {})) && old(forall c :: c in S ==> !Stale(c, S, {}))
    requires old(NoneEnded(S, n.rank))
    ensures Coherent(S, {n}) && NoneEnded(S, n.rank)
  {
    hide Current, Stale, Same, NotEnded, Wired;
    forall m, c | m in S && c in S && !Stale(c, S, {n}) ensures Current(m, c, S) {
      NotStaleIsSame(c, S, {n}, {});
      CurrentKept(m, c, S, {n});
    }
    forall m, k | m in S && k in m.kpis ensures NotEnded(m, k, S, n.rank) {
      KpisOf(m, S);
      NotEndedKept(m, k, S, n, n.rank);
    }
  }

  /** When nothing is a reason for staleness, nothing is stale, not even by a downtime. */
  lemma NothingIsStale(n: Node, S: set<Node>)
    requires Graph(S) && Coherent(S, {}) && n in S
    ensures !Stale(n, S, {})
    decreases n.rank
  {
    hide Current, KpiDowntime;
    if n.left != null { NothingIsStale(n.left, S); }
    if n.right != null { NothingIsStale(n.right, S); }
    forall k | k in n.kpis ensures n.cache.impacts[k].inDowntime == KpiDowntime(k, S) {
      NothingIsStale(k, S);
      ToldDowntime(n, k, S);
    }
  }

  /** Every cache is then what its node shows, and every BA knows the downtimes of its KPIs. */
  lemma AllCurrent(S: set<Node>, low: nat)
    requires Graph(S) && Coherent(S, {})
    ensures forall n :: n in S ==> !Stale(n, S, {})
    ensures forall n, c :: n in S && c in S ==> Current(n, c, S)
    ensures NoneEnded(S, low)
  {
    hide Current, Stale, NotEnded, Wired;
    forall n | n in S ensures !Stale(n, S, {}) { NothingIsStale(n, S); }
    forall n, k | n in S && k in n.kpis ensures NotEnded(n, k, S, low) {
      KpisOf(n, S);
      ToldIsNotEnded(n, k, S, low);
    }
  }

  /** Once all parents of n took in what n shows, n itself is no longer a reason for
      staleness: what reads through to n reads through a changed parent of n. */
  lemma AllParentsTold(n: Node, S: set<Node>, D: set<Node>, changed: set<Node>)
    requires Graph(S) && n in S && Coherent(S, D + changed)
    requires forall p :: p in n.parents ==> Current(p, n, S)
    requires forall p :: p in n.parents ==> p in changed || p.kind.Activity?
    ensures Coherent(S, D - {n} + changed)
  {
    var E := D - {n} + changed;
    forall m, c | m in S && c in S && !Stale(c, S, E) ensures Current(m, c, S) {
      if Stale(c, S, D + changed) {
        OnlyNStays(c, n, S, D, changed);
        if m !in n.parents {
          NotAParent(m, n, S);
        }
      }
    }
  }

  lemma NotAParent(m: Node, c: Node, S: set<Node>)
    requires Graph(S) && m in S && c in S && m !in c.parents
    ensures Current(m, c, S)
  {
    hide Hard, Info;
  }

  lemma {:induction false} OnlyNStays(c: Node, n: Node, S: set<Node>, D: set<Node>, changed: set<Node>)
    requires Graph(S) && n in S && c in S
    requires forall p :: p in n.parents ==> p in changed || p.kind.Activity?
    requires Stale(c, S, D + changed) && !Stale(c, S, D - {n} + changed)
    ensures c == n
    decreases c.rank
  {
    if c !in D + changed {
      var below := if c.left != null && Stale(c.left, S, D + changed) then c.left else c.right;
      OnlyNStays(below, n, S, D, changed);
    }
  }

  lemma OperandsOf(n: Node, S: set<Node>)
    requires Graph(S) && n in S && n.kind.Binary?
    ensures n.left != null && n.left in S && n.left.rank < n.rank && IsBool(n.left.kind)
    ensures n.right != null && n.right in S && n.right.rank < n.rank && IsBool(n.right.kind)
    ensures n.left != n.right
  {}

  lemma KpisOf(n: Node, S: set<Node>)
    requires Graph(S) && n in S
    ensures if n.kind.Activity? then n.cache.impacts.Keys == n.kpis else n.kpis == {}
    ensures forall k :: k in n.kpis ==> k in S && k.rank < n.rank && IsKpi(k.kind)
  {}

  lemma ActivityOf(k: Node, S: set<Node>)
    requires Graph(S) && k in S && k.kind.ActivityKpi?
    ensures k.left != null && k.left in S && k.left.rank < k.rank && k.left.kind.Activity?
  {}

  /** Changing the cache of n keeps the graph wired. */
  twostate lemma {:induction false} GraphKept(new n: Node, new S: set<Node>)
    requires old(allocated(S)) && n in S
    requires old(Graph(S))
    requires OnlyChanged(S, {n})
    requires n.cache.impacts.Keys == old(n.cache.impacts.Keys)
    ensures Graph(S)
  {}

  // ------------------------------------------- the events of expression KPIs

  /** The state of the event that is open after a KPI was told of its expression, from the
      value of the expression, whether all of it is known, and the event before. */
  function EventFor(impactIf: bool, value: Num, known: bool, before: Option<State>): State {
    if !known && before.Some? then before.value
    else if value == Real(if impactIf then 1.0 else 0.0) then CriticalState
    else OkState
  }

  ghost function EventAfter(k: Node, before: Option<State>, S: set<Node>): Option<State>
    requires Graph(S) && k in S && k.kind.ExpressionKpi?
    reads S
  {
    Some(EventFor(k.left.kind.impactIf, Hard(k.left.left, S), Known(k.left.left, S), before))
  }

  ghost function EventsOf(S: set<Node>): map<Node, Option<State>>
    reads S`cache
  {
    map k | k in S && k.kind.ExpressionKpi? :: k.cache.event
  }

  /** Since the events were `before`, exactly the KPIs of `told` were told. */
  ghost predicate EventsAre(S: set<Node>, before: map<Node, Option<State>>, visitor: bool, told: set<Node>)
    requires Graph(S)
    reads S
  {
    forall k :: k in S && k.kind.ExpressionKpi? ==>
      k in before && k.cache.event == if visitor && k in told then EventAfter(k, before[k], S) else before[k]
  }

  /** The KPIs of an expression. */
  ghost function KpisOn(x: Node, S: set<Node>): set<Node>
    reads S`left
  {
    set k | k in S && k.kind.ExpressionKpi? && k.left == x
  }

  ghost predicate IsBelow(c: Node?, n: Node, S: set<Node>) { c != null && c in S && c.rank < n.rank }

  /** The value of n is computed from that of x. */
  ghost predicate ReadsFrom(n: Node, x: Node, S: set<Node>)
    requires n in S
    reads S`left, S`right
    decreases n.rank
  {
    || n == x
    || (IsBelow(n.left, n, S) && ReadsFrom(n.left, x, S))
    || (IsBelow(n.right, n, S) && ReadsFrom(n.right, x, S))
  }

  /** The expression of k is x, or its value is computed from that of x. */
  ghost predicate IsAbove(k: Node, x: Node, S: set<Node>)
    requires k in S
    reads S`left, S`right
  {
    k.kind.ExpressionKpi? && IsBelow(k.left, k, S) &&
    (k.left == x || (IsBelow(k.left.left, k.left, S) && ReadsFrom(k.left.left, x, S)))
  }

  ghost function Above(x: Node, S: set<Node>): set<Node>
    reads S`left, S`right
  {
    set k | k in S && IsAbove(k, x, S)
  }

  /** Parents are told by the children they have, and a boolean node has one parent at most,
      as the builder makes them. */
  ghost predicate Trees(S: set<Node>)
    reads S`left, S`right, S`kpis, S`parents
  {
    && (forall n, p :: n in S && p in n.parents && p in S ==> n == p.left || n == p.right || n in p.kpis)
    && (forall n :: n in S && IsBool(n.kind) ==> |n.parents| <= 1)
  }

  function Among(nodes: seq<Node>): set<Node> { set n | n in nodes }

  lemma AmongMore(nodes: seq<Node>, i: nat)
    requires i < |nodes|
    ensures Among(nodes[..i + 1]) == Among(nodes[..i]) + {nodes[i]}
  {
    assert nodes[..i + 1] == nodes[..i] + [nodes[i]];
  }

  lemma NoKpisOn(x: Node, S: set<Node>)
    ensures Among(x.parents[..0]) * KpisOn(x, S) == {}
  {}

  lemma AllKpisTold(x: Node, S: set<Node>)
    requires Graph(S) && x in S
    ensures Among(x.parents[..|x.parents|]) * KpisOn(x, S) == KpisOn(x, S)
  {
    assert x.parents[..|x.parents|] == x.parents;
    forall k | k in KpisOn(x, S) ensures k in x.parents { KnownToChild(k, S); }
  }

  lemma KnownToChild(k: Node, S: set<Node>)
    requires Graph(S) && k in S && k.left != null
    ensures k in k.left.parents
  {}

  lemma OnThisHeight(x: Node, kpis: set<Node>, S: set<Node>)
    requires Graph(S) && x in S && kpis <= KpisOn(x, S)
    ensures forall k :: k in kpis ==> k in S && k.kind.ExpressionKpi? && k.left.rank <= x.rank
  {}

  lemma NoneTold(S: set<Node>, visitor: bool)
    requires Graph(S)
    ensures EventsAre(S, EventsOf(S), visitor, {}) && EventsOf(S).Keys <= S
  {}

  /** What lies at or below a height shows what it showed when only higher caches changed. */
  twostate lemma {:induction false} LowValuesKept(new n: Node, new S: set<Node>, low: nat)
    requires old(allocated(S)) && n in S && IsBool(n.kind) && n.rank <= low
    requires old(Graph(S))
    requires Graph(S)
    requires forall m :: m in S ==> m.left == old(m.left) && m.right == old(m.right) && m.service == old(m.service)
    requires forall m :: m in S && m.rank <= low ==> m.cache == old(m.cache)
    ensures Hard(n, S) == old(Hard(n, S)) && Known(n, S) == old(Known(n, S))
    decreases n.rank
  {
    hide Combine, Compute, Bool;
    if n.left != null { LowValuesKept(n.left, S, low); }
    if n.right != null { LowValuesKept(n.right, S, low); }
  }

  twostate lemma {:induction false} EventAfterKept(new k: Node, new e: Option<State>, new S: set<Node>, low: nat)
    requires old(allocated(S)) && k in S && k.kind.ExpressionKpi?
    requires old(Graph(S))
    requires Graph(S)
    requires k.left.rank <= low
    requires forall m :: m in S ==> m.left == old(m.left) && m.right == old(m.right) && m.service == old(m.service)
    requires forall m :: m in S && m.rank <= low ==> m.cache == old(m.cache)
    ensures EventAfter(k, e, S) == old(EventAfter(k, e, S))
  {
    hide Hard, Known;
    LowValuesKept(k.left.left, S, low);
  }

  /** p was told by x, and no other node was. */
  twostate lemma {:induction false} OneTold(new p: Node, new x: Node, visitor: bool, new S: set<Node>)
    requires old(allocated(S)) && p in S && x in S && x.rank < p.rank
    requires old(Graph(S))
    requires Graph(S)
    requires OnlyCaches(S, {p})
    requires p.cache.event == if p.kind.ExpressionKpi? && x == p.left && visitor then old(EventAfter(p, p.cache.event, S))
                              else old(p.cache.event)
    ensures EventsAre(S, old(EventsOf(S)), visitor, {p} * KpisOn(x, S))
  {
    hide EventAfter, Wired;
    if p.kind.ExpressionKpi? && x == p.left { EventAfterKept(p, old(p.cache.event), S, x.rank); }
  }

  /** Two rounds of telling are one, if nothing that the first one told of changed since. */
  twostate lemma {:induction false} EventsTwice(new S: set<Node>, new before: map<Node, Option<State>>, new first: set<Node>,
                                                new then': set<Node>, new low: nat, new visitor: bool)
    requires old(allocated(S)) && old(allocated(before)) && old(allocated(first))
    requires old(Graph(S))
    requires Graph(S)
    requires old(EventsAre(S, before, visitor, first)) && EventsAre(S, old(EventsOf(S)), visitor, then')
    requires forall k :: k in first ==> k in S && k.kind.ExpressionKpi? && k.left.rank <= low
    requires forall m :: m in S ==> m.left == old(m.left) && m.right == old(m.right) && m.service == old(m.service)
    requires forall m :: m in S && m.rank <= low ==> m.cache == old(m.cache)
    ensures EventsAre(S, before, visitor, first + then')
  {
    hide EventAfter, Wired;
    forall k | k in S && k.kind.ExpressionKpi?
      ensures k in before &&
              k.cache.event == if visitor && k in first + then' then EventAfter(k, before[k], S) else before[k]
    {
      if k in first {
        EventAfterKept(k, before[k], S, low);
        if k in then' { ToldTwice(k, before[k], S); }
      }
    }
  }

  lemma ToldTwice(k: Node, e: Option<State>, S: set<Node>)
    requires Graph(S) && k in S && k.kind.ExpressionKpi?
    ensures EventAfter(k, EventAfter(k, e, S), S) == EventAfter(k, e, S)
  {
    hide Hard, Known;
  }

  // -------------------------------------------- what is above one node

  /** Above an expression are its KPIs, above a KPI or a BA there are none, and a boolean
      node without a parent is read by nobody. */
  lemma AboveThis(x: Node, S: set<Node>)
    requires Graph(S) && x in S
    ensures IsBool(x.kind) ==> KpisOn(x, S) == {}
    ensures !IsBool(x.kind) ==> Above(x, S) == KpisOn(x, S)
    ensures IsBool(x.kind) && x.parents == [] ==> Above(x, S) == {}
  {
    forall k | k in S && k.kind.ExpressionKpi? && ReadsFrom(k.left.left, x, S)
      ensures IsBool(x.kind) && x.parents != []
    {
      ReadsBool(k.left.left, x, S);
      if k.left.left == x {
        KnownToChild(k.left, S);
      } else {
        var p := ReaderIsParent(k.left.left, x, S);
      }
    }
  }

  lemma {:induction false} ReadsBool(n: Node, x: Node, S: set<Node>)
    requires Graph(S) && n in S && IsBool(n.kind) && ReadsFrom(n, x, S)
    ensures IsBool(x.kind)
    decreases n.rank
  {
    if n != x {
      if n.left != null && ReadsFrom(n.left, x, S) { ReadsBool(n.left, x, S); } else { ReadsBool(n.right, x, S); }
    }
  }

  /** What reads from x reads from a parent of x. */
  lemma {:induction false} ReaderIsParent(n: Node, x: Node, S: set<Node>) returns (p: Node)
    requires Graph(S) && n in S && IsBool(n.kind) && ReadsFrom(n, x, S) && n != x
    ensures p in x.parents && p in S && IsBool(p.kind) && ReadsFrom(n, p, S)
    decreases n.rank
  {
    var below := if n.left != null && ReadsFrom(n.left, x, S) then n.left else n.right;
    if below == x { p := n; } else { p := ReaderIsParent(below, x, S); }
  }

  lemma {:induction false} ReadsThrough(n: Node, p: Node, x: Node, S: set<Node>)
    requires Graph(S) && n in S && IsBool(n.kind) && p in S && IsBool(p.kind) && ReadsFrom(n, p, S)
    requires x == p.left || x == p.right
    ensures ReadsFrom(n, x, S)
    decreases n.rank
  {
    if n != p {
      if n.left != null && ReadsFrom(n.left, p, S) { ReadsThrough(n.left, p, x, S); } else { ReadsThrough(n.right, p, x, S); }
    }
  }

  /** What is above a boolean node is above its parent, and nothing is above the parents of
      other nodes. */
  lemma AboveParent(x: Node, p: Node, S: set<Node>)
    requires Graph(S) && Trees(S) && x in S && p in x.parents
    ensures Above(p, S) == if IsBool(x.kind) then Above(x, S) else {}
    ensures IsBool(x.kind) ==> |x.parents| == 1 && !p.kind.Activity?
  {
    hide Above, Trees;
    ParentsOf(x, S);
    forall k | k in Above(p, S) ensures IsBool(x.kind) && k in Above(x, S) { AboveParentIsAbove(k, x, p, S); }
    if IsBool(x.kind) {
      OneParent(x, p, S);
      LinkedUp(x, p, S);
      forall k | k in Above(x, S) ensures k in Above(p, S) { AboveIsAboveParent(k, x, p, S); }
    }
  }

  lemma AboveParentIsAbove(k: Node, x: Node, p: Node, S: set<Node>)
    requires Graph(S) && Trees(S) && x in S && p in x.parents && p in S && k in Above(p, S)
    ensures IsBool(x.kind) && k in Above(x, S)
  {
    hide ReadsFrom;
    LinkedUp(x, p, S);
    if k.left == p {
      ReadsItself(x, S);
    } else {
      ReadsBool(k.left.left, p, S);
      ReadsThrough(k.left.left, p, x, S);
    }
  }

  lemma LinkedUp(x: Node, p: Node, S: set<Node>)
    requires Graph(S) && Trees(S) && x in S && p in x.parents
    ensures p in S && (x == p.left || x == p.right || x in p.kpis)
    ensures IsBool(p.kind) || p.kind.Expression? ==> x == p.left || x == p.right
    ensures IsBool(p.kind) || p.kind.Expression? ==> IsBool(x.kind)
    ensures p.kind.Expression? ==> x == p.left
    ensures p.kind.Activity? ==> !IsBool(x.kind)
  {}

  lemma ReadsItself(x: Node, S: set<Node>)
    requires Graph(S) && x in S && IsBool(x.kind)
    ensures ReadsFrom(x, x, S)
  {}

  lemma AboveIsAboveParent(k: Node, x: Node, p: Node, S: set<Node>)
    requires Graph(S) && Trees(S) && x in S && IsBool(x.kind) && p in x.parents && k in Above(x, S)
    ensures k in Above(p, S)
  {
    hide ReadsFrom;
    var n := k.left.left;
    OneParent(x, p, S);
    if n == x {
      KnownToChild(k.left, S);
    } else {
      var q := ReaderIsParent(n, x, S);
    }
  }

  lemma OneParent(x: Node, p: Node, S: set<Node>)
    requires Graph(S) && Trees(S) && x in S && IsBool(x.kind) && p in x.parents
    ensures x.parents == [p]
  {}

  // ------------------------------------------------------------ the object

  class Node {
    const kind: Kind
    /** Height over the leaves of the graph. */
    ghost const rank: nat
    var left: Node?     // the only child of a node that has one child
    var right: Node?
    var kpis: set<Node> // the KPIs of a BA
    var parents: seq<Node>
    var service: ServiceState   // of a Service
    var info: ImpactInfo        // of a ServiceKpi
    var cache: Cache

    constructor (kind: Kind, ghost rank: nat, cache: Cache)
      ensures this.kind == kind && this.rank == rank && this.cache == cache
      ensures left == null && right == null && kpis == {} && parents == []
      ensures service == ServiceState(0.0, 0.0, false, false)
      ensures info.hard == info.soft == Impact(0.0, 0.0, 0.0, OkState) && !info.inDowntime
    {
      this.kind, this.rank, this.cache := kind, rank, cache;
      left, right, kpis, parents := null, null, {}, [];
      service := ServiceState(0.0, 0.0, false, false);
      var nothing := Impact(0.0, 0.0, 0.0, OkState);
      info := ImpactInfo(nothing, nothing, false);
    }

    /** bool_binary_operator::child_has_update. */
    method OperandHasUpdate(child: Node, ghost S: set<Node>)
      requires Graph(S) && this in S && child in S && kind.Binary?
      modifies this`cache
      ensures Graph(S)
      ensures cache.leftHard == if child == left then Hard(child, S) else old(cache.leftHard)
      ensures cache.leftSoft == if child == left then Soft(child, S) else old(cache.leftSoft)
      ensures cache.rightHard == if child == right then Hard(child, S) else old(cache.rightHard)
      ensures cache.rightSoft ==
              if child == right && (Differ(old(cache.rightHard), Hard(child, S)) ||
                                    !Differ(old(cache.rightSoft), Soft(child, S)))
              then Soft(child, S) else old(cache.rightSoft)
      ensures cache.impacts == old(cache.impacts) && cache.view == old(cache.view) && cache.event == old(cache.event)
    {
      hide Combine, Compute, Hard, Soft;
      OperandsOf(this, S);
      if child == left || child == right {
        cache := Taken(cache, child == left, child == right, Hard(child, S), Soft(child, S));
        GraphKept(this, S);
        LowerIsSame(this, child, S);
      }
    }

    /** ba::child_has_update, as far as its cached impacts go. What the BA makes of the
        new impact is the subject of module BusinessActivity and is arbitrary here, except
        that it does not end a downtime of the BA. */
    method ImpactHasUpdate(child: Node, ghost S: set<Node>) returns (changed: bool)
      requires Graph(S) && this in S && child in S && kind.Activity?
      modifies this`cache
      ensures Graph(S)
      ensures child in kpis ==> cache.impacts == old(cache.impacts)[child := Info(child, S)]
      ensures child !in kpis ==> cache == old(cache)
      ensures !changed <==> child in kpis && child in old(cache.impacts) && old(cache.impacts)[child] == Info(child, S)
      ensures !changed ==> cache == old(cache)
      ensures old(cache.view.inDowntime) ==> cache.view.inDowntime
      ensures cache.event == old(cache.event)
    {
      hide Info, Wired;
      changed := true;
      KpisOf(this, S);
      if child in cache.impacts {
        var info := Info(child, S);
        var impacts := cache.impacts[child := info];
        if cache.impacts[child] == info {
          assert impacts == cache.impacts;
          return false;
        }
        var view: View :| cache.view.inDowntime ==> view.inDowntime;
        assert impacts.Keys == cache.impacts.Keys;
        cache := cache.(impacts := impacts, view := view);
        GraphKept(this, S);
        LowerIsSame(this, child, S);
      }
    }

    /** kpi_boolexp::visit: an event that tells the current state is open afterwards. */
    method ExpressionHasUpdate(ghost S: set<Node>)
      requires Graph(S) && this in S && kind.ExpressionKpi?
      modifies this`cache
      ensures Graph(S)
      ensures cache == old(cache).(event := old(EventAfter(this, cache.event, S)))
    {
      hide Combine, Compute, Hard, Soft, Info, Known;
      var state := KpiState(this, S);
      if cache.event.None? {
        cache := cache.(event := Some(state));
      } else if state != cache.event.value {
        cache := cache.(event := Some(state));
      }
      GraphKept(this, S);
    }

    /** child_has_update of every class of node; the result says whether this node may
        show something new. */
    method ChildHasUpdate(child: Node, visitor: bool, ghost S: set<Node>) returns (changed: bool)
      requires Graph(S) && this in S && child in S
      modifies this`cache
      ensures Graph(S)
      ensures Current(this, child, S)
      ensures !changed ==> kind.Activity? && cache == old(cache)
      ensures forall c :: c in S && c != child ==> EntryKept(this, c)
      ensures old(cache.view.inDowntime) ==> cache.view.inDowntime
      ensures cache.event == if kind.ExpressionKpi? && child == left && visitor then old(EventAfter(this, cache.event, S))
                             else old(cache.event)
    {
      hide Combine, Compute, Hard, Soft, Info, KpiState, EventAfter;
      changed := true;
      if kind.Binary? {
        OperandHasUpdate(child, S);
      } else if kind.Activity? {
        changed := ImpactHasUpdate(child, S);
      } else if kind.ExpressionKpi? && child == left && visitor {
        ExpressionHasUpdate(S);
      }
    }

    /** One call of child_has_update in the first loop of propagate_update. */
    method Notify(p: Node, visitor: bool, ghost S: set<Node>, ghost D: set<Node>, ghost low: nat)
      returns (changed: bool)
      requires Graph(S) && this in S && p in S && low <= rank < p.rank
      requires Coherent(S, D) && NoneEnded(S, low)
      modifies p`cache
      ensures Graph(S)
      ensures Coherent(S, if changed then D + {p} else D) && NoneEnded(S, low)
      ensures Current(p, this, S)
      ensures forall m :: m in S && old(Current(m, this, S)) ==> Current(m, this, S)
      ensures !changed ==> p.kind.Activity?
      ensures EventsAre(S, old(EventsOf(S)), visitor, {p} * KpisOn(this, S))
    {
      hide Current, Coherent, Stale, Wired, NoneEnded, Same, EventAfter, EventsAre;
      changed := p.ChildHasUpdate(this, visitor, S);
      assert OnlyCaches(S, {p});
      if changed {
        Notified(p, this, S, D, low);
        NoneEndedKept(p, this, S, low);
      } else {
        NothingChanged(S, D, low);
      }
      LowerIsSame(p, this, S);
      forall m | m in S && old(Current(m, this, S)) ensures Current(m, this, S) {
        if m != p { CurrentKept(m, this, S, {p}); }
      }
      OneTold(p, this, visitor, S);
    }

    /** One call among others: the KPIs of `told` were told of this node before. */
    method NotifyNext(p: Node, visitor: bool, ghost S: set<Node>, ghost D: set<Node>, ghost low: nat,
                      ghost events: map<Node, Option<State>>, ghost told: set<Node>) returns (changed: bool)
      requires Graph(S) && this in S && p in S && low <= rank < p.rank
      requires Coherent(S, D) && NoneEnded(S, low)
      requires EventsAre(S, events, visitor, told) && told <= KpisOn(this, S)
      modifies p`cache
      ensures Graph(S)
      ensures Coherent(S, if changed then D + {p} else D) && NoneEnded(S, low)
      ensures Current(p, this, S)
      ensures forall m :: m in S && old(Current(m, this, S)) ==> Current(m, this, S)
      ensures !changed ==> p.kind.Activity?
      ensures EventsAre(S, events, visitor, told + {p} * KpisOn(this, S))
    {
      hide Current, Coherent, Wired, Graph, NoneEnded, EventsAre, EventsOf, KpisOn;
      OnThisHeight(this, told, S);
      changed := Notify(p, visitor, S, D, low);
      EventsTwice(S, events, told, {p} * KpisOn(this, S), rank, visitor);
    }

    /** The first loop of propagate_update: every parent is told. */
    method TellParents(visitor: bool, ghost S: set<Node>, ghost D: set<Node>, ghost low: nat) returns (filter: seq<bool>)
      requires Graph(S) && this in S && Coherent(S, D) && NoneEnded(S, low) && low <= rank
      modifies S`cache
      ensures |filter| == |parents|
      ensures Graph(S) && Coherent(S, D - {this} + Flagged(parents, filter)) && NoneEnded(S, low)
      ensures forall n :: n in S && n.rank <= rank ==> n.cache == old(n.cache)
      ensures forall j :: 0 <= j < |filter| ==> filter[j] || parents[j].kind.Activity?
      ensures EventsAre(S, old(EventsOf(S)), visitor, KpisOn(this, S))
    {
      hide Current, Coherent, Stale, Wired, Graph, NoneEnded, EventsAre, EventsOf, KpisOn, Flagged, Among;
      filter := [];
      ghost var events, kpisTold: set<Node> := EventsOf(S), {};
      NoneTold(S, visitor);
      NoKpisOn(this, S);
      FlaggedNone(parents);
      assert D + Flagged(parents, filter) == D;
      ParentsOf(this, S);
      var i := 0;
      while i < |parents|
        invariant 0 <= i <= |parents| && |filter| == i
        invariant Graph(S) && Coherent(S, D + Flagged(parents, filter)) && NoneEnded(S, low)
        invariant forall n :: n in S && n.rank <= rank ==> n.cache == old(n.cache)
        invariant forall j :: 0 <= j < i ==> Current(parents[j], this, S)
        invariant forall j :: 0 <= j < i ==> filter[j] || parents[j].kind.Activity?
        invariant kpisTold == Among(parents[..i]) * KpisOn(this, S)
        invariant EventsAre(S, events, visitor, kpisTold)
      {
        ghost var told := Flagged(parents, filter);
        var c := NotifyNext(parents[i], visitor, S, D + told, low, events, kpisTold);
        AmongMore(parents, i);
        kpisTold := kpisTold + {parents[i]} * KpisOn(this, S);
        FlaggedGrows(parents, filter, c);
        assert D + Flagged(parents, filter + [c]) == if c then D + told + {parents[i]} else D + told;
        filter := filter + [c];
        i := i + 1;
      }
      FlaggedHolds(parents, filter);
      AllParentsTold(this, S, D, Flagged(parents, filter));
      AllKpisTold(this, S);
    }

    /** propagate_update: first every parent is told, then those that changed tell theirs.
        Stale as far as D before, the graph is stale as far as D without this node after:
        with D = {this} every cache ends up current. The recursion climbs, so it ends, and
        nothing changes at or below this node. */
    method PropagateUpdate(visitor: bool, ghost S: set<Node>, ghost D: set<Node>, ghost low: nat, ghost top: nat)
      requires Graph(S) && this in S && low <= rank
      requires forall n :: n in S ==> n.rank < top
      requires Coherent(S, D) && NoneEnded(S, low)
      modifies S`cache
      ensures Graph(S)
      ensures Coherent(S, D - {this}) && NoneEnded(S, low)
      ensures forall n :: n in S && n.rank <= rank ==> n.cache == old(n.cache)
      ensures Trees(S) ==> EventsAre(S, old(EventsOf(S)), visitor, Above(this, S))
      decreases top - rank, 1
    {
      hide Current, Coherent, Stale, Wired, Graph, NoneEnded, EventsAre, EventsOf, KpisOn, Above, Trees;
      ParentsOf(this, S);
      ghost var events := EventsOf(S);
      NoneTold(S, visitor);
      var filter := TellParents(visitor, S, D, low);
      ghost var told := KpisOn(this, S);
      OnThisHeight(this, told, S);
      AboveThis(this, S);
      ghost var stale := D - {this} + Flagged(parents, filter);
      var i := 0;
      while i < |parents|
        invariant 0 <= i <= |parents|
        invariant Graph(S) && Coherent(S, stale) && NoneEnded(S, low)
        invariant forall n :: n in S && n.rank <= rank ==> n.cache == old(n.cache)
        invariant stale <= D - {this} + Flagged(parents, filter)
        invariant forall j :: 0 <= j < i && filter[j] ==> parents[j] !in stale
        invariant EventsAre(S, events, visitor, told) || !Trees(S)
        invariant Trees(S) ==> told == if IsBool(kind) && i == 0 then {} else Above(this, S)
      {
        if Trees(S) { AboveParent(this, parents[i], S); }
        if filter[i] {
          PropagateNext(parents[i], visitor, S, stale, low, top, events, told);
          if Trees(S) { told := told + Above(parents[i], S); }
          stale := stale - {parents[i]};
        }
        i := i + 1;
      }
      CoherentMonotone(S, stale, D - {this});
    }

    /** One call of the second loop: the KPIs of `told` were told of this node before. */
    method PropagateNext(p: Node, visitor: bool, ghost S: set<Node>, ghost D: set<Node>, ghost low: nat, ghost top: nat,
                         ghost events: map<Node, Option<State>>, ghost told: set<Node>)
      requires Graph(S) && this in S && p in S && low <= rank < p.rank
      requires forall n :: n in S ==> n.rank < top
      requires Coherent(S, D) && NoneEnded(S, low)
      requires Trees(S) ==> EventsAre(S, events, visitor, told) && told <= KpisOn(this, S)
      modifies S`cache
      ensures Graph(S)
      ensures Coherent(S, D - {p}) && NoneEnded(S, low)
      ensures forall n :: n in S && n.rank <= p.rank ==> n.cache == old(n.cache)
      ensures Trees(S) ==> EventsAre(S, events, visitor, told + Above(p, S))
      decreases top - rank, 0
    {
      hide Current, Coherent, Wired, Graph, NoneEnded, EventsAre, EventsOf, KpisOn, Above, Trees;
      if Trees(S) { OnThisHeight(this, told, S); }
      p.PropagateUpdate(visitor, S, D, low, top);
      if Trees(S) { EventsTwice(S, events, told, Above(p, S), rank, visitor); }
    }

    /** bool_service::service_update on a matching status. */
    method ServiceUpdate(status: ServiceState, visitor: bool, ghost S: set<Node>, ghost top: nat)
      requires Graph(S) && this in S && kind.Service?
      requires forall n :: n in S ==> n.rank < top
      requires Coherent(S, {})
      modifies this`service, S`cache
      ensures service == status.(known := true)
      ensures Graph(S) && Coherent(S, {})
      ensures Trees(S) ==> forall k :: k in S && k.kind.ExpressionKpi? ==>
                if visitor && IsAbove(k, this, S) then ToldRight(k, old(k.cache.event), S)
                else k.cache.event == old(k.cache.event)
    {
      hide Current, Coherent, Stale, Same, NoneEnded, Wired, EventsAre, IsAbove, Trees, ToldRight;
      AllCurrent(S, rank);
      service := status.(known := true);
      GraphKept(this, S);
      RootChanged(this, S);
      PropagateUpdate(visitor, S, {this}, rank, top);
      assert {this} - {this} == {};
      if Trees(S) { EventsAreRight(S, old(EventsOf(S)), visitor, this); }
    }

    /** An update of a service KPI that gives it a new impact. */
    method ServiceKpiUpdate(impact: ImpactInfo, visitor: bool, ghost S: set<Node>, ghost top: nat)
      requires Graph(S) && this in S && kind.ServiceKpi?
      requires forall n :: n in S ==> n.rank < top
      requires Coherent(S, {})
      modifies this`info, S`cache
      ensures info == impact
      ensures Graph(S) && Coherent(S, {})
      ensures Trees(S) ==> forall k :: k in S && k.kind.ExpressionKpi? ==> k.cache.event == old(k.cache.event)
    {
      hide Current, Coherent, Stale, Same, NoneEnded, Wired, Trees;
      AllCurrent(S, rank);
      info := impact;
      GraphKept(this, S);
      RootChanged(this, S);
      PropagateUpdate(visitor, S, {this}, rank, top);
      assert {this} - {this} == {};
      NothingAbove(this, S);
    }

    /** ba::service_update: a downtime of the BA's own service started or ended. */
    method DowntimeUpdate(started: bool, visitor: bool, ghost S: set<Node>, ghost top: nat)
      requires Graph(S) && this in S && kind.Activity?
      requires forall n :: n in S ==> n.rank < top
      requires Coherent(S, {})
      modifies S`cache
      ensures cache == old(cache).(view := old(cache.view).(inDowntime := started))
      ensures Graph(S) && Coherent(S, {})
      ensures Trees(S) ==> forall k :: k in S && k.kind.ExpressionKpi? ==> k.cache.event == old(k.cache.event)
    {
      hide Current, Coherent, Stale, Same, NoneEnded, Wired, Trees;
      if cache.view.inDowntime != started {
        AllCurrent(S, rank);
        cache := cache.(view := cache.view.(inDowntime := started));
        GraphKept(this, S);
        RootChanged(this, S);
        PropagateUpdate(visitor, S, {this}, rank, top);
        assert {this} - {this} == {};
        NothingAbove(this, S);
      }
    }
  }

  // ------------------------------------------------------------- evaluation

  /** The value of an expression, computed from the services up, without caches. */
  ghost function Direct(n: Node, S: set<Node>): Num
    requires Graph(S) && n in S && IsBool(n.kind)
    reads S
    decreases n.rank
  {
    match n.kind
    case Constant(number) => number
    case Service(_, _) => Real(n.service.hard)
    case NotNode => Bool(!Truthy(Direct(n.left, S)))
    case Binary(op) => Combine(op, Direct(n.left, S), Direct(n.right, S))
  }

  /** When every cache is current, the value of a node is the value of its expression
      over the latest hard states of the services. */
  lemma CoherentIsDirect(n: Node, S: set<Node>)
    requires Graph(S) && Coherent(S, {})
    requires n in S && IsBool(n.kind)
    ensures Hard(n, S) == Direct(n, S)
    decreases n.rank
  {
    hide Combine, Compute, Bool;
    if n.left != null {
      NothingIsStale(n.left, S);
      assert Current(n, n.left, S);
      CoherentIsDirect(n.left, S);
    }
    if n.right != null {
      NothingIsStale(n.right, S);
      assert Current(n, n.right, S);
      CoherentIsDirect(n.right, S);
    }
  }

  // --------------------------------------------- what a KPI makes of a value

  /** The value of the expression of k triggers it. */
  ghost predicate Triggers(k: Node, S: set<Node>)
    requires Graph(S) && k in S && k.kind.ExpressionKpi?
    reads S
  {
    Direct(k.left.left, S) == Real(if k.left.kind.impactIf then 1.0 else 0.0)
  }

  /** After a KPI was told of its expression an event is open: CRITICAL if the value of the
      expression triggers the KPI and OK if not, or as it was before if some of the
      expression is not known. */
  ghost predicate ToldRight(k: Node, before: Option<State>, S: set<Node>)
    requires Graph(S) && k in S && k.kind.ExpressionKpi?
    reads S
  {
    && k.cache.event.Some?
    && if !Known(k.left.left, S) && before.Some? then k.cache.event == before
       else k.cache.event.value in {OkState, CriticalState} && (k.cache.event.value == CriticalState <==> Triggers(k, S))
  }

  lemma EventsAreRight(S: set<Node>, before: map<Node, Option<State>>, visitor: bool, x: Node)
    requires Graph(S) && Coherent(S, {}) && EventsAre(S, before, visitor, Above(x, S))
    ensures forall k :: k in S && k.kind.ExpressionKpi? ==>
              k in before && if visitor && IsAbove(k, x, S) then ToldRight(k, before[k], S) else k.cache.event == before[k]
  {
    hide Known, Hard, Direct, Coherent;
    forall k | k in S && k.kind.ExpressionKpi? { CoherentIsDirect(k.left.left, S); }
  }

  lemma NothingAbove(x: Node, S: set<Node>)
    requires Graph(S) && x in S && (x.kind.Activity? || x.kind.ServiceKpi?)
    ensures Above(x, S) == {}
  {
    AboveThis(x, S);
  }

  /** What a BA has cached about the KPI of an expression, once nothing is stale: the whole
      impact unless the state is OK, and no acknowledgement and no downtime. The state is
      CRITICAL if the value triggers it and OK if not, or that of the open event if some of
      the expression is not known. */
  lemma ExpressionImpact(b: Node, k: Node, S: set<Node>)
    requires Graph(S) && Coherent(S, {}) && b in S && k in b.kpis && k.kind.ExpressionKpi?
    ensures k in S && k in b.cache.impacts
    ensures var i := b.cache.impacts[k];
            && i.hard == i.soft && i.hard.acknowledgement == i.hard.downtime == 0.0
            && i.hard.nominal == (if i.hard.state == OkState then 0.0 else k.kind.impact)
            && (if Known(k.left.left, S) || k.cache.event.None?
                then i.hard.state in {OkState, CriticalState} && (i.hard.state == CriticalState <==> Triggers(k, S))
                else i.hard.state == k.cache.event.value)
            && (i.inDowntime <==> exists s :: s in NodesOf(k.left.left, S) && s.kind.Service? && s.service.inDowntime)
  {
    hide Known, Hard, Direct, Coherent, InDowntime, NodesOf, Stale;
    AllCurrent(S, 0);
    KpisOf(b, S);
    assert Current(b, k, S);
    CoherentIsDirect(k.left.left, S);
    InDowntimeIff(k.left.left, S);
  }

  /** The nodes an expression is made of. */
  ghost function NodesOf(n: Node, S: set<Node>): (nodes: set<Node>)
    requires Graph(S) && n in S && IsBool(n.kind)
    ensures forall m :: m in nodes ==> m in S && IsBool(m.kind)
    reads S
    decreases n.rank
  {
    {n} + (if n.left == null then {} else NodesOf(n.left, S)) + (if n.right == null then {} else NodesOf(n.right, S))
  }

  /** An expression is known if and only if every service in it was heard of, and the right
      operand of no division and no remainder in it is next to zero, be it the hard or the
      soft one. */
  lemma {:induction false} KnownIff(n: Node, S: set<Node>)
    requires Graph(S) && n in S && IsBool(n.kind)
    ensures Known(n, S) <==>
            forall m :: m in NodesOf(n, S) ==>
              && (m.kind.Service? ==> m.service.known)
              && (m.kind.Binary? && m.kind.op in {Operation(Division), Operation(Modulo)} ==>
                    NotSmall(m.cache.rightHard) && NotSmall(m.cache.rightSoft))
    decreases n.rank
  {
    if n.left != null { KnownIff(n.left, S); }
    if n.right != null { KnownIff(n.right, S); }
  }

  predicate NotSmall(n: Num) { n.Real? ==> n.value <= -0.0001 || 0.0001 <= n.value }

  lemma {:induction false} InDowntimeIff(n: Node, S: set<Node>)
    requires Graph(S) && n in S && IsBool(n.kind)
    ensures InDowntime(n, S) <==> exists s :: s in NodesOf(n, S) && s.kind.Service? && s.service.inDowntime
    decreases n.rank
  {
    if n.left != null { InDowntimeIff(n.left, S); }
    if n.right != null { InDowntimeIff(n.right, S); }
  }

  /** The value of an expression over the soft states. */
  ghost function DirectSoft(n: Node, S: set<Node>): Num
    requires Graph(S) && n in S && IsBool(n.kind)
    reads S
    decreases n.rank
  {
    match n.kind
    case Constant(number) => number
    case Service(_, _) => Real(n.service.soft)
    case NotNode => Bool(!Truthy(DirectSoft(n.left, S)))
    case Binary(op) => Combine(op, DirectSoft(n.left, S), DirectSoft(n.right, S))
  }

  ghost predicate SoftIsCached(m: Node, S: set<Node>)
    requires Graph(S) && m in S
    reads S
  {
    m.kind.Binary? ==> m.cache.leftSoft == Soft(m.left, S) && m.cache.rightSoft == Soft(m.right, S)
  }

  /** As far as the soft operands are cached right, a soft value is that of the expression
      over the soft states. */
  lemma {:induction false} SoftIsDirect(n: Node, S: set<Node>)
    requires Graph(S) && n in S && IsBool(n.kind)
    requires forall m :: m in NodesOf(n, S) ==> SoftIsCached(m, S)
    ensures Soft(n, S) == DirectSoft(n, S)
    decreases n.rank
  {
    hide Combine, Compute, Bool, Hard, Known;
    assert n in NodesOf(n, S) && SoftIsCached(n, S);
    if n.left != null { SoftIsDirect(n.left, S); }
    if n.right != null { SoftIsDirect(n.right, S); }
  }

  /** What a BA has cached about the KPI of another BA: the nominal impact that belongs to
      the state, and of it the share that the acknowledgements and the downtimes of that BA
      are percent of, never more than all of it. */
  lemma ActivityKpiImpact(b: Node, k: Node, S: set<Node>)
    requires Graph(S) && Coherent(S, {}) && b in S && k in b.kpis && k.kind.ActivityKpi?
    ensures k in S && k in b.cache.impacts
    ensures var (i, v) := (b.cache.impacts[k], k.left.cache.view);
            && i.inDowntime == v.inDowntime
            && IsImpact(k.kind, i.soft, v.soft, v.ackSoft, v.downtimeSoft)
            && IsImpact(k.kind, i.hard, if AllToldDown(k.left) then OkState else v.hard, v.ackHard, v.downtimeHard)
  {
    hide Coherent, IsImpact, ActivityImpact, Current, Shown, AllToldDown, Stale;
    AllCurrent(S, 0);
    KpisOf(b, S);
    ActivityOf(k, S);
    CachedInfo(b, k, S);
    ShownIsTold(k.left, S);
    forall state, ack, downtime ensures IsImpact(k.kind, ActivityImpact(k.kind, state, ack, downtime), state, ack, downtime) {
      ImpactIs(k.kind, state, ack, downtime);
    }
  }

  lemma CachedInfo(b: Node, k: Node, S: set<Node>)
    requires Graph(S) && b in S && k in b.kpis && Current(b, k, S)
    ensures k in S && IsKpi(k.kind) && k in b.cache.impacts && b.cache.impacts[k] == Info(k, S)
  {
    hide Info;
    KpisOf(b, S);
  }

  /** A BA that ignores KPIs in downtime was told of a downtime of each of them. */
  ghost predicate AllToldDown(n: Node)
    requires n.kind.Activity?
    reads n
  {
    n.kind.ignores && n.kpis != {} && forall j :: j in n.kpis && j in n.cache.impacts ==> n.cache.impacts[j].inDowntime
  }

  lemma ShownIsTold(n: Node, S: set<Node>)
    requires Graph(S) && n in S && n.kind.Activity? && forall k :: k in n.kpis && k in S ==> Current(n, k, S)
    ensures Shown(n, S) == n.cache.view.(hard := if AllToldDown(n) then OkState else n.cache.view.hard)
  {
    hide Current, KpiDowntime, Wired;
    KpisOf(n, S);
    forall j | j in n.kpis ensures n.cache.impacts[j].inDowntime == KpiDowntime(j, S) { ToldDowntime(n, j, S); }
  }

  predicate IsImpact(k: Kind, i: Impact, state: State, ack: real, downtime: real)
    requires k.ActivityKpi?
  {
    && i.state == state
    && (state == OkState ==> i.nominal == 0.0)
    && (state == WarningState ==> i.nominal == k.warning)
    && (state in {CriticalState, UnknownState} ==> i.nominal == k.critical)
    && IsShare(ack, i.nominal, i.acknowledgement) && IsShare(downtime, i.nominal, i.downtime)
  }

  lemma ImpactIs(k: Kind, state: State, ack: real, downtime: real)
    requires k.ActivityKpi?
    ensures IsImpact(k, ActivityImpact(k, state, ack, downtime), state, ack, downtime)
  {
    hide Share, IsShare;
    forall percent, nominal ensures IsShare(percent, nominal, Share(percent, nominal)) { ShareIsShare(percent, nominal); }
  }

  predicate IsShare(percent: real, nominal: real, share: real) {
    && (percent <= 0.0 ==> share == 0.0)
    && (percent >= 100.0 ==> share == nominal)
    && (0.0 <= percent <= 100.0 ==> 100.0 * share == percent * nominal)
  }

  lemma ShareIsShare(percent: real, nominal: real)
    ensures IsShare(percent, nominal, Share(percent, nominal))
  {}
}

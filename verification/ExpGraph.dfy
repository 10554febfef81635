/** exp_builder as it works: it allocates the computation nodes of an expression and
    links them. Module ExpBuilder says which tree the nodes form; here they are shown to
    form it, to be a graph whose caches are current, and to stay so under any sequence
    of service updates. */
module ExpGraph {
  import opened Options
  import opened ExpTokens
  import opened ExpBuilder
  import opened C = Computable
  import ExpParser
  import ExpPrinter
  import ExpText
  import B = ExpBuilder

  datatype Slot = Word(text: string) | Value(node: Node)

  type Slots = ExpParser.Stack<Slot>

  const EMPTY := Cache(Real(0.0), Real(0.0), Real(0.0), Real(0.0), None, map[],
                       View(OkState, OkState, 0.0, 0.0, 0.0, 0.0, false))

  /** The nodes of S hanging from n form the tree t. */
  ghost predicate Represents(n: Node, t: Tree, S: set<Node>)
    reads S
    decreases t
  {
    n in S &&
    match t
    case Constant(number) => n.kind == Kind.Constant(number)
    case Service(h, s) => n.kind == Kind.Service(h, s)
    case Negation(arg) => n.kind == NotNode && n.left != null && Represents(n.left, arg, S)
    case Binary(op, l, r) =>
      && n.kind == Kind.Binary(op)
      && n.left != null && Represents(n.left, l, S)
      && n.right != null && Represents(n.right, r, S)
  }

  ghost predicate IsOperand(slot: Slot, o: Operand, S: set<Node>)
    reads S
  {
    match o
    case Text(w) => slot == Slot.Word(w)
    case Node(t) => slot.Value? && IsBool(slot.node.kind) && Represents(slot.node, t, S)
  }

  ghost predicate Holds(slots: Slots, spec: Operands, S: set<Node>)
    reads S
    decreases slots
  {
    match slots
    case Nil => spec.Nil?
    case Cons(slot, rest) => spec.Cons? && IsOperand(slot, spec.top, S) && Holds(rest, spec.rest, S)
  }

  /** No node stands on the operand stack twice. */
  predicate Distinct(slots: Slots)
    decreases slots
  {
    slots.Cons? ==>
      && (slots.top.Value? ==> slots.top !in Members(slots.rest))
      && Distinct(slots.rest)
  }

  function Members(slots: Slots): set<Slot> {
    if slots.Nil? then {} else {slots.top} + Members(slots.rest)
  }

  ghost predicate Bools(S: set<Node>)
    reads S
  {
    forall n :: n in S ==> IsBool(n.kind) && n.kpis == {}
  }

  // -------------------------------------------------------- adding one node

  /** The nodes of S are as before, but for their lists of parents. */
  twostate predicate Untouched(new S: set<Node>)
    requires old(allocated(S))
    reads S
  {
    forall n :: n in S ==>
      && n.left == old(n.left) && n.right == old(n.right) && n.kpis == old(n.kpis)
      && n.cache == old(n.cache) && n.service == old(n.service) && n.info == old(n.info)
  }

  twostate lemma {:induction false} BoolExtended(new c: Node, new S: set<Node>, new T: set<Node>)
    requires old(allocated(S)) && c in S && S <= T
    requires old(Graph(S))
    requires Graph(T)
    requires Untouched(S)
    requires IsBool(c.kind)
    ensures Hard(c, T) == old(Hard(c, S))
    ensures Known(c, T) == old(Known(c, S))
    ensures InDowntime(c, T) == old(InDowntime(c, S))
    decreases c.rank
  {
    hide Combine, Compute, Bool;
    if c.left != null { BoolExtended(c.left, S, T); }
    if c.right != null { BoolExtended(c.right, S, T); }
  }

  twostate lemma {:induction false} CurrentExtended(new m: Node, new c: Node, new S: set<Node>, new T: set<Node>)
    requires old(allocated(S)) && m in S && c in S && S <= T
    requires old(Graph(S))
    requires Graph(T)
    requires Untouched(S)
    requires IsBool(c.kind) && m.kpis == {}
    requires old(Current(m, c, S))
    ensures Current(m, c, T)
  {
    hide Combine, Compute, Bool, Hard, Known, InDowntime, Info;
    BoolExtended(c, S, T);
  }

  lemma OnlyChildrenMatter(m: Node, c: Node, T: set<Node>)
    requires Graph(T) && m in T && c in T
    requires c != m.left && c != m.right && c !in m.kpis
    ensures Current(m, c, T)
  {
    hide Hard, Info;
  }

  /** A graph with current caches stays one when a node is put on top of it. */
  twostate lemma {:induction false} Extended(new n: Node, new S: set<Node>)
    requires old(allocated(S)) && n !in S
    requires old(Graph(S))
    requires Graph(S + {n})
    requires Untouched(S)
    requires old(Coherent(S, {})) && Bools(S)
    requires forall c :: c in S ==> Current(n, c, S + {n})
    ensures Coherent(S + {n}, {})
  {
    hide Hard, Info, Current, Stale;
    var T := S + {n};
    forall m, c | m in T && c in T ensures Current(m, c, T) {
      if c == n {
        ChildrenBelow(m, n, S);
        OnlyChildrenMatter(m, c, T);
      } else if m in S {
        NothingWasStale(c, S);
        CurrentExtended(m, c, S, T);
      }
    }
  }

  twostate lemma {:induction false} ChildrenBelow(new m: Node, new n: Node, new S: set<Node>)
    requires old(allocated(S)) && n !in S && m in S + {n}
    requires old(Graph(S))
    requires Graph(S + {n})
    requires Untouched(S)
    ensures n != m.left && n != m.right && n !in m.kpis
  {}

  twostate lemma {:induction false} NothingWasStale(new c: Node, new S: set<Node>)
    requires old(allocated(S)) && c in S
    requires old(Graph(S))
    requires Bools(S)
    ensures !old(Stale(c, S, {}))
    decreases c.rank
  {
    if old(c.left) != null { NothingWasStale(old(c.left), S); }
    if old(c.right) != null { NothingWasStale(old(c.right), S); }
  }

  twostate lemma {:induction false} RepresentsExtended(new m: Node, t: Tree, new S: set<Node>, new T: set<Node>)
    requires old(allocated(S)) && m in S && S <= T
    requires Untouched(S)
    requires old(Represents(m, t, S))
    ensures Represents(m, t, T)
    decreases t
  {
    match t
    case Negation(arg) => RepresentsExtended(m.left, arg, S, T);
    case Binary(_, l, r) =>
      RepresentsExtended(m.left, l, S, T);
      RepresentsExtended(m.right, r, S, T);
    case _ =>
  }

  twostate lemma {:induction false} HoldsExtended(new slots: Slots, spec: Operands, new S: set<Node>, new T: set<Node>)
    requires old(allocated(S)) && S <= T
    requires old(allocated(slots))
    requires Untouched(S)
    requires old(Holds(slots, spec, S))
    ensures Holds(slots, spec, T)
    decreases slots
  {
    if slots.Cons? {
      if spec.top.Node? { RepresentsExtended(slots.top.node, spec.top.tree, S, T); }
      HoldsExtended(slots.rest, spec.rest, S, T);
    }
  }

  /** Allocates a node over l and r and links it: add_parent on the children, then
      set_left and set_right, which read the children's values. */
  method NewNode(kind: Kind, l: Node?, r: Node?, ghost S: set<Node>, ghost top: nat) returns (n: Node)
    requires Graph(S) && Bools(S) && Coherent(S, {}) && Trees(S)
    requires l != null ==> l.parents == []
    requires r != null ==> r.parents == []
    requires forall m :: m in S ==> m.rank < top
    requires kind.Constant? || kind.Service? ==> l == null && r == null
    requires kind.NotNode? ==> l != null && l in S && r == null
    requires kind.Binary? ==> l != null && l in S && r != null && r in S && l != r
    requires IsBool(kind)
    modifies S`parents
    ensures fresh(n) && n.kind == kind && n.left == l && n.right == r && n.parents == [] && n.rank == top
    ensures n.service == NEVER
    ensures Graph(S + {n}) && Bools(S + {n}) && Coherent(S + {n}, {}) && Trees(S + {n})
    ensures Untouched(S)
    ensures forall m :: m in S && m != l && m != r ==> m.parents == old(m.parents)
  {
    hide Hard, Soft, Coherent, Trees, Current, Wired, Graph;
    var cache := EMPTY;
    if kind.Binary? {
      cache := cache.(leftHard := Hard(l, S), leftSoft := Soft(l, S),
                      rightHard := Hard(r, S), rightSoft := Soft(r, S));
    }
    n := new Node(kind, top, cache);
    if l != null {
      l.parents := l.parents + [n];
      n.left := l;
    }
    if r != null {
      r.parents := r.parents + [n];
      n.right := r;
    }
    NewNodeWired(n, S);
    NewNodeCurrent(n, l, r, S);
    Extended(n, S);
    TreesExtended(n, S);
  }

  /** A new operator whose cache holds what its operands show is current. */
  twostate lemma {:induction false} NewNodeCurrent(new n: Node, new l: Node?, new r: Node?, new S: set<Node>)
    requires old(allocated(S)) && IsBool(n.kind)
    requires old(Graph(S))
    requires Graph(S + {n})
    requires Untouched(S) && n.kpis == {} && n.left == l && n.right == r
    requires n.kind.Binary? ==> l != null && l in S && IsBool(l.kind) && n.cache.leftHard == old(Hard(l, S))
    requires n.kind.Binary? ==> r != null && r in S && IsBool(r.kind) && n.cache.rightHard == old(Hard(r, S))
    ensures forall c :: c in S ==> Current(n, c, S + {n})
  {
    hide Hard, Current, Wired;
    if n.kind.Binary? {
      BinaryCurrent(n, l, r, S);
    } else {
      LeafCurrent(n, S + {n});
    }
  }

  twostate lemma {:induction false} TreesExtended(new n: Node, new S: set<Node>)
    requires old(allocated(S)) && n !in S
    requires old(Graph(S)) && old(Trees(S))
    requires Graph(S + {n})
    requires Untouched(S) && n.parents == []
    requires forall m :: m in S ==> m.parents == old(m.parents) + if m == n.left || m == n.right then [n] else []
    requires forall m :: m in S && (m == n.left || m == n.right) ==> old(m.parents) == []
    ensures Trees(S + {n})
  {
    forall m, p | m in S && p in m.parents && p in S + {n} ensures m == p.left || m == p.right || m in p.kpis {
      if p != n { assert p in old(m.parents); }
    }
  }

  twostate lemma {:induction false} NewNodeWired(new n: Node, new S: set<Node>)
    requires old(allocated(S)) && n !in S
    requires old(Graph(S))
    requires Untouched(S) && Bools(S)
    requires n.parents == [] && n.kpis == {} && IsBool(n.kind)
    requires forall m :: m in S ==> m.rank < n.rank
    requires forall m :: m in S ==> m.parents == old(m.parents) + if m == n.left || m == n.right then [n] else []
    requires n.kind.Constant? || n.kind.Service? ==> n.left == null && n.right == null
    requires n.kind.NotNode? ==> n.left != null && n.left in S && n.right == null
    requires n.kind.Binary? ==> n.left != null && n.left in S && n.right != null && n.right in S && n.left != n.right
    ensures Graph(S + {n})
  {
    hide Wired;
    forall m | m in S ensures Wired(m, S + {n}) {
      assert old(Wired(m, S));
      WiredExtended(m, n, S);
    }
    assert Wired(n, S + {n}) by { NewIsWired(n, S); }
  }

  twostate lemma {:induction false} WiredExtended(new m: Node, new n: Node, new S: set<Node>)
    requires old(allocated(S)) && n !in S && m in S
    requires old(Wired(m, S))
    requires Untouched(S)
    requires forall c :: c in S ==> old(c.parents) <= c.parents
    requires m.parents == old(m.parents) || (m.parents == old(m.parents) + [n] && m.rank < n.rank)
    ensures Wired(m, S + {n})
  {}

  lemma NewIsWired(n: Node, S: set<Node>)
    requires n !in S && Bools(S)
    requires n.parents == [] && n.kpis == {} && IsBool(n.kind)
    requires forall m :: m in S ==> m.rank < n.rank
    requires forall m :: m in S && (m == n.left || m == n.right) ==> n in m.parents
    requires n.kind.Constant? || n.kind.Service? ==> n.left == null && n.right == null
    requires n.kind.NotNode? ==> n.left != null && n.left in S && n.right == null
    requires n.kind.Binary? ==> n.left != null && n.left in S && n.right != null && n.right in S && n.left != n.right
    ensures Wired(n, S + {n})
  {}

  twostate lemma {:induction false} BinaryCurrent(new n: Node, new l: Node, new r: Node, new S: set<Node>)
    requires old(allocated(S)) && l in S && r in S && IsBool(l.kind) && IsBool(r.kind)
    requires old(Graph(S))
    requires Graph(S + {n})
    requires Untouched(S) && n.kpis == {}
    requires n.left == l && n.cache.leftHard == old(Hard(l, S))
    requires n.right == r && n.cache.rightHard == old(Hard(r, S))
    ensures forall c :: c in S ==> Current(n, c, S + {n})
  {
    hide Hard, Known, InDowntime, Wired;
    var T := S + {n};
    BoolExtended(l, S, T);
    BoolExtended(r, S, T);
    assert Hard(l, T) == n.cache.leftHard && Hard(r, T) == n.cache.rightHard;
  }

  lemma LeafCurrent(n: Node, T: set<Node>)
    requires Graph(T) && n in T && !n.kind.Binary? && n.kpis == {}
    ensures forall c :: c in T ==> Current(n, c, T)
  {}

  // -------------------------------------------------------------- evaluation

  datatype Status = Status(host: nat, service: nat, state: ServiceState)

  const NEVER := ServiceState(0.0, 0.0, false, false)

  /** The state of a service after a history of statuses. */
  function Latest(history: seq<Status>, h: nat, s: nat): ServiceState {
    if history == [] then NEVER
    else
      var last := history[|history| - 1];
      if last.host == h && last.service == s then last.state.(known := true)
      else Latest(history[..|history| - 1], h, s)
  }

  /** The hard value of a tree over the latest statuses, read off the tree itself. */
  function Evaluate(t: Tree, history: seq<Status>): Num {
    match t
    case Constant(number) => number
    case Service(h, s) => Real(Latest(history, h, s).hard)
    case Negation(arg) => Bool(!Truthy(Evaluate(arg, history)))
    case Binary(op, l, r) => Combine(op, Evaluate(l, history), Evaluate(r, history))
  }

  ghost predicate ShowsLatest(S: set<Node>, history: seq<Status>)
    reads S
  {
    forall n :: n in S && n.kind.Service? ==> n.service == Latest(history, n.kind.host, n.kind.service)
  }

  lemma {:induction false} TreeIsDirect(n: Node, t: Tree, S: set<Node>, history: seq<Status>)
    requires Graph(S) && Represents(n, t, S) && IsBool(n.kind) && ShowsLatest(S, history)
    ensures Direct(n, S) == Evaluate(t, history)
    decreases t
  {
    hide Combine, Compute, Bool, Latest;
    match t
    case Negation(arg) => TreeIsDirect(n.left, arg, S, history);
    case Binary(_, l, r) =>
      TreeIsDirect(n.left, l, S, history);
      TreeIsDirect(n.right, r, S, history);
    case _ =>
  }

  twostate lemma {:induction false} SameTree(new n: Node, t: Tree, new S: set<Node>)
    requires old(allocated(S)) && n in S
    requires forall m :: m in S ==> m.left == old(m.left) && m.right == old(m.right)
    requires old(Represents(n, t, S))
    ensures Represents(n, t, S)
    decreases t
  {
    match t
    case Negation(arg) => SameTree(n.left, arg, S);
    case Binary(_, l, r) => SameTree(n.left, l, S); SameTree(n.right, r, S);
    case _ =>
  }

  lemma InsideGraph(n: Node, t: Tree, S: set<Node>)
    requires Represents(n, t, S)
    ensures n in S
  {}

  // ------------------------------------------------------------- the builder

  /** The nodes on the operand stack have no parent yet. */
  ghost predicate Free(slots: Slots, S: set<Node>)
    reads S
  {
    forall slot :: slot in Members(slots) && slot.Value? ==> slot.node in S && slot.node.parents == []
  }

  /** The operands stay free, and the new node is none of them. */
  twostate lemma {:induction false} FreeExtended(new n: Node, new l: Node?, new r: Node?, new slots: Slots, new S: set<Node>)
    requires old(allocated(S)) && old(allocated(slots)) && n !in S
    requires old(Free(slots, S))
    requires l != null ==> Value(l) !in Members(slots)
    requires r != null ==> Value(r) !in Members(slots)
    requires forall m :: m in S && m != l && m != r ==> m.parents == old(m.parents)
    ensures Free(slots, S + {n}) && Value(n) !in Members(slots)
  {}

  twostate lemma {:induction false} LatestExtended(new n: Node, new S: set<Node>)
    requires old(allocated(S)) && n !in S
    requires old(ShowsLatest(S, []))
    requires Untouched(S) && n.service == NEVER
    ensures ShowsLatest(S + {n}, [])
  {}

  /** kind is the kind of the root of t, and its children form the subtrees of t. */
  ghost predicate Fits(kind: Kind, l: Node?, r: Node?, t: Tree, S: set<Node>)
    reads S
  {
    match t
    case Constant(number) => kind == Kind.Constant(number) && l == null && r == null
    case Service(h, s) => kind == Kind.Service(h, s) && l == null && r == null
    case Negation(arg) =>
      kind == NotNode && l != null && Represents(l, arg, S) && IsBool(l.kind) && l.parents == [] && r == null
    case Binary(op, lt, rt) =>
      && kind == Kind.Binary(op) && l != r
      && l != null && Represents(l, lt, S) && IsBool(l.kind) && l.parents == []
      && r != null && Represents(r, rt, S) && IsBool(r.kind) && r.parents == []
  }

  twostate lemma {:induction false} FitsRepresents(new n: Node, new kind: Kind, new t: Tree, new l: Node?, new r: Node?, new S: set<Node>)
    requires old(allocated(S))
    requires l != null ==> l in S
    requires r != null ==> r in S
    requires Untouched(S)
    requires old(Fits(kind, l, r, t, S))
    requires n.kind == kind && n.left == l && n.right == r
    ensures Represents(n, t, S + {n})
  {
    match t
    case Negation(arg) => RepresentsExtended(l, arg, S, S + {n});
    case Binary(_, lt, rt) =>
      RepresentsExtended(l, lt, S, S + {n});
      RepresentsExtended(r, rt, S, S + {n});
    case _ =>
  }

  class Builder {
    const names: Names
    var operands: Slots
    var services: seq<Node>
    ghost var nodes: set<Node>
    ghost var top: nat

    constructor (names: Names)
      ensures this.names == names && operands.Nil? && services == [] && nodes == {}
      ensures Valid(ExpParser.Nil)
    {
      this.names := names;
      operands, services, nodes, top := ExpParser.Nil, [], {}, 0;
    }

    /** The nodes made so far: a graph with current caches, its services listed. */
    ghost predicate Sound()
      reads this, nodes
    {
      && Graph(nodes) && Bools(nodes) && Coherent(nodes, {}) && Trees(nodes)
      && (forall n :: n in nodes ==> n.rank < top)
      && (forall n :: n in services ==> n in nodes && n.kind.Service?)
      && (forall n :: n in nodes && n.kind.Service? ==> n in services)
    }

    /** ... and the operand stack holds what `spec` says. */
    ghost predicate Valid(spec: Operands)
      reads this, nodes
    {
      && Sound() && ShowsLatest(nodes, [])
      && Holds(operands, spec, nodes) && Distinct(operands) && Free(operands, nodes)
    }

    method Make(kind: Kind, l: Node?, r: Node?, ghost t: Tree, ghost spec: Operands) returns (n: Node)
      requires Valid(spec) && Fits(kind, l, r, t, nodes)
      requires l != null ==> l in nodes && Value(l) !in Members(operands)
      requires r != null ==> r in nodes && Value(r) !in Members(operands)
      modifies this`nodes, this`top, this`services, nodes`parents
      ensures Valid(spec) && fresh(n) && nodes == old(nodes) + {n}
      ensures n.kind == kind && n.parents == [] && Represents(n, t, nodes) && Value(n) !in Members(operands)
      ensures forall m :: m in old(nodes) && m != l && m != r ==> m.parents == old(m.parents)
      ensures forall m, u :: m in old(nodes) && old(Represents(m, u, nodes)) ==> Represents(m, u, nodes)
    {
      hide Graph, Coherent, Trees, Bools, Represents, Holds, Distinct, Untouched, Free, ShowsLatest, Members;
      n := NewNode(kind, l, r, nodes, top);
      ghost var S := nodes;
      FitsRepresents(n, kind, t, l, r, S);
      HoldsExtended(operands, spec, S, S + {n});
      FreeExtended(n, l, r, operands, S);
      LatestExtended(n, S);
      forall m, u | m in S && old(Represents(m, u, nodes)) ensures Represents(m, u, S + {n}) {
        RepresentsExtended(m, u, S, S + {n});
      }
      nodes, top := nodes + {n}, top + 1;
      if kind.Service? { services := services + [n]; }
    }

    /** Pushes a node that has no parent and is not on the stack. */
    method Push(n: Node, ghost t: Tree, ghost spec: Operands)
      requires Valid(spec) && n in nodes && n.parents == [] && Value(n) !in Members(operands)
      requires Represents(n, t, nodes) && IsBool(n.kind)
      modifies this`operands
      ensures Valid(ExpParser.Cons(B.Operand.Node(t), spec))
    {
      hide Graph, Coherent, Trees, Bools, Represents;
      operands := ExpParser.Cons(Value(n), operands);
    }

    method PushText(w: string, ghost spec: Operands)
      requires Valid(spec)
      modifies this`operands
      ensures Valid(ExpParser.Cons(Text(w), spec))
    {
      hide Graph, Coherent, Trees, Bools, Represents;
      operands := ExpParser.Cons(Slot.Word(w), operands);
    }

    /** _pop_operand: a string becomes a constant. */
    method PopOperand(ghost spec: Operands) returns (n: Node?)
      requires Valid(spec)
      modifies this, nodes`parents
      ensures fresh(nodes - old(nodes)) && old(nodes) <= nodes
      ensures if spec.Nil? then n == null && Valid(spec)
              else n != null && Valid(spec.rest) && Ready(n, ToTree(names, spec.top))
      ensures n != null ==> fresh(n) || Value(n) in Members(old(operands))
      ensures forall m, u :: m in old(nodes) && old(Ready(m, u)) ==> Ready(m, u)
    {
      hide Graph, Coherent, Trees, Bools, Represents, Number, Fits;
      if operands.Nil? { return null; }
      var top := operands.top;
      operands := operands.rest;
      match top {
        case Word(w) =>
          ghost var t := Tree.Constant(Number(names, w));
          assert Fits(Kind.Constant(Number(names, w)), null, null, t, nodes) by { ConstantFits(Number(names, w), nodes); }
          n := Make(Kind.Constant(Number(names, w)), null, null, t, spec.rest);
        case Value(node) => n := node;
      }
    }

    /** An operator of the notation. */
    method Operator(op: Op, ghost spec: Operands) returns (r: Result<()>)
      requires Valid(spec)
      modifies this, nodes`parents
      ensures fresh(nodes - old(nodes)) && old(nodes) <= nodes
      ensures match Apply(names, op, spec)
              case Ok(spec') => r.Ok? && Valid(spec')
              case Err(e) => r == Err(e)
    {
      hide Graph, Coherent, Trees, Bools, Represents, Number, Holds, Distinct, Free, Ready, Fits, KindOf;
      if op == NegU { return Ok(()); }
      if op == Bang {
        var arg := PopOperand(spec);
        if arg == null { return Err(MissingOperand); }
        ghost var t := ToTree(names, spec.top);
        NotFits(this, arg, t);
        var n := Make(NotNode, arg, null, Negation(t), spec.rest);
        IsReady(this, n, Negation(t));
        Push(n, Negation(t), spec.rest);
        return Ok(());
      }
      r := BinaryOperator(op, spec);
    }

    method BinaryOperator(op: ExpPrinter.BinOp, ghost spec: Operands) returns (r: Result<()>)
      requires Valid(spec)
      modifies this, nodes`parents
      ensures fresh(nodes - old(nodes)) && old(nodes) <= nodes
      ensures match Apply(names, op, spec)
              case Ok(spec') => r.Ok? && Valid(spec')
              case Err(e) => r == Err(e)
    {
      hide Graph, Coherent, Trees, Bools, Represents, Number, Holds, Distinct, Free, Ready, Fits, KindOf;
      var right := PopOperand(spec);
      if right == null { return Err(MissingOperand); }
      ghost var rt := ToTree(names, spec.top);
      IsReady(this, right, rt);
      var left := PopOperand(spec.rest);
      if left == null { return Err(MissingOperand); }
      ghost var lt := ToTree(names, spec.rest.top);
      ghost var t := Tree.Binary(KindOf(op), lt, rt);
      BinaryFits(this, KindOf(op), left, lt, right, rt);
      var n := Make(Kind.Binary(KindOf(op)), left, right, t, spec.rest.rest);
      Push(n, t, spec.rest.rest);
      return Ok(());
    }

    /** _pop_string, n times. */
    method PopTexts(n: nat, ghost spec: Operands) returns (r: Result<seq<string>>)
      requires Valid(spec)
      modifies this`operands
      ensures match PopStrings(spec, n)
              case Ok((strings, rest)) => r == Ok(strings) && Valid(rest)
              case Err(e) => r == Err(e)
    {
      hide Graph, Coherent, Trees, Bools, Represents;
      if n == 0 { return Ok([]); }
      if operands.Nil? { return Err(MissingOperand); }
      match operands.top {
        case Value(_) => return Err(NotAString);
        case Word(w) =>
          if w == "" { return Err(NotAString); }
          operands := operands.rest;
          var more := PopTexts(n - 1, spec.rest);
          if more.Err? { return more; }
          return Ok([w] + more.value);
      }
    }

    /** A function of the notation and its arity. */
    method Function(fn: Fn, arity: int, ghost spec: Operands) returns (r: Result<()>)
      requires Valid(spec)
      modifies this, nodes`parents
      ensures fresh(nodes - old(nodes)) && old(nodes) <= nodes
      ensures match B.Call(names, fn, arity, spec)
              case Ok(spec') => r.Ok? && Valid(spec')
              case Err(e) => r == Err(e)
    {
      hide Graph, Coherent, Trees, Bools, Represents, Holds, Distinct, Free, PopStrings;
      if !IsStatic(fn) { return Ok(()); }
      if arity != StaticArity(fn) { return Err(WrongArity); }
      var strings := PopTexts(StaticArity(fn), spec);
      if strings.Err? { return Err(strings.error); }
      if fn == ServiceStatus {
        var service, host := strings.value[0], strings.value[1];
        if !Found(names, host, service) { return Err(UnknownService); }
        var ids := names.services[(host, service)];
        ghost var spec' := PopStrings(spec, 2).value.1;
        ghost var t := Tree.Service(ids.0, ids.1);
        var n := Make(Kind.Service(ids.0, ids.1), null, null, t, spec');
        Push(n, t, spec');
      }
      return Ok(());
    }

    /** The constructor of exp_builder: the nodes it makes form the tree that
        ExpBuilder.Build names, in a graph whose caches are current. */
    method Build(postfix: seq<Token>) returns (r: Result<Node>)
      requires Valid(ExpParser.Nil)
      modifies this, nodes`parents
      ensures fresh(nodes - old(nodes))
      ensures r.Ok? ==> Sound() && ShowsLatest(nodes, [])
      ensures match B.Build(names, postfix)
              case Ok(t) => r.Ok? && Represents(r.value, t, nodes) && IsBool(r.value.kind)
              case Err(e) => r == Err(e)
    {
      hide Graph, Coherent, Trees, Bools, Represents, Holds, Distinct, Free, Apply, B.Call, ReadArity, Ready;
      ghost var spec: Operands := ExpParser.Nil;
      var i := 0;
      while i < |postfix|
        invariant 0 <= i <= |postfix|
        invariant fresh(nodes - old(nodes)) && Valid(spec)
        invariant Execute(names, postfix, ExpParser.Nil) == Execute(names, postfix[i..], spec)
      {
        assert postfix[i..][0] == postfix[i] && postfix[i..][1..] == postfix[i + 1..];
        match postfix[i] {
          case Operator(op) =>
            ghost var next := Apply(names, op, spec);
            var done := Operator(op, spec);
            if done.Err? { return Err(done.error); }
            spec := next.value;
          case Function(fn) =>
            i := i + 1;
            if i == |postfix| { return Err(MissingArity); }
            assert postfix[i - 1..][2..] == postfix[i + 1..];
            ghost var next := B.Call(names, fn, ReadArity(postfix[i]), spec);
            var done := Function(fn, ReadArity(postfix[i]), spec);
            if done.Err? { return Err(done.error); }
            spec := next.value;
          case t =>
            PushText(Spell(t), spec);
            spec := ExpParser.Cons(Text(Spell(t)), spec);
        }
        i := i + 1;
      }
      var root := PopOperand(spec);
      if root == null { return Err(MissingOperand); }
      RestHeld(this, spec.rest);
      IsReady(this, root, ToTree(names, spec.top));
      if operands.Cons? { return Err(Leftover); }
      return Ok(root);
    }

    /** A status of service s of host h reaches every listener, that is every service node. */
    method Deliver(h: nat, s: nat, status: ServiceState, visitor: bool)
      requires Sound()
      modifies nodes`service, nodes`cache
      ensures Sound()
      ensures forall n :: n in nodes && n.kind.Service? ==>
                n.service == if n.kind == Kind.Service(h, s) then status.(known := true) else old(n.service)
    {
      hide Graph, Coherent, Trees, Wired;
      var i := 0;
      while i < |services|
        invariant 0 <= i <= |services| && Sound()
        invariant forall n :: n in nodes && n.kind.Service? ==>
            n.service == if n.kind == Kind.Service(h, s) && n in services[..i] then status.(known := true)
                         else old(n.service)
      {
        if services[i].kind == Kind.Service(h, s) {
          services[i].ServiceUpdate(status, visitor, nodes, top);
        }
        i := i + 1;
      }
      assert services[..i] == services;
    }

    /** Any run of status updates: afterwards each node shows the value that its tree has
        over the latest statuses. */
    method Run(history: seq<Status>, visitor: bool, ghost n: Node, ghost t: Tree)
      requires Sound() && Represents(n, t, nodes) && IsBool(n.kind)
      requires ShowsLatest(nodes, [])
      modifies nodes`service, nodes`cache
      ensures Sound() && Hard(n, nodes) == Evaluate(t, history)
    {
      hide Graph, Coherent, Trees, Bools, Wired, Represents, Hard;
      InsideGraph(n, t, nodes);
      var i := 0;
      while i < |history|
        invariant 0 <= i <= |history| && Sound()
        invariant ShowsLatest(nodes, history[..i])
      {
        var st := history[i];
        assert history[..i + 1] == history[..i] + [st];
        Deliver(st.host, st.service, st.state, visitor);
        i := i + 1;
      }
      assert history[..i] == history;
      SameTree(n, t, nodes);
      TreeIsDirect(n, t, nodes, history);
      CoherentIsDirect(n, nodes);
    }

    /** A node that can be linked: it represents t, has no parent, and is off the stack. */
    ghost predicate Ready(n: Node, t: Tree)
      reads this, nodes, n
    {
      && n in nodes && Represents(n, t, nodes) && IsBool(n.kind)
      && n.parents == [] && Value(n) !in Members(operands)
    }
  }

  lemma ConstantFits(number: Num, S: set<Node>)
    ensures Fits(Kind.Constant(number), null, null, Tree.Constant(number), S)
  {}

  lemma IsReady(b: Builder, n: Node, t: Tree)
    ensures b.Ready(n, t) <==>
            n in b.nodes && Represents(n, t, b.nodes) && IsBool(n.kind) &&
            n.parents == [] && Value(n) !in Members(b.operands)
  {}

  lemma NotFits(b: Builder, arg: Node, t: Tree)
    requires b.Ready(arg, t)
    ensures arg in b.nodes && Value(arg) !in Members(b.operands)
    ensures Fits(NotNode, arg, null, Negation(t), b.nodes)
  {}

  lemma BinaryFits(b: Builder, op: BinKind, l: Node, lt: Tree, r: Node, rt: Tree)
    requires b.Ready(l, lt) && b.Ready(r, rt) && l != r
    ensures l in b.nodes && Value(l) !in Members(b.operands)
    ensures r in b.nodes && Value(r) !in Members(b.operands)
    ensures Fits(Kind.Binary(op), l, r, Tree.Binary(op, lt, rt), b.nodes)
  {}

  lemma RestHeld(b: Builder, spec: Operands)
    requires b.Valid(spec)
    ensures b.operands.Cons? <==> spec.Cons?
  {}

  // -------------------------------------------------------------- end to end

  /** The value of a text over the latest statuses: that of the tree it is compiled to, or
      none where the parser or the builder throws. */
  function Served(names: Names, text: string, history: seq<Status>): Option<Num> {
    match ExpText.GetPostfixOf(text)
    case Notation(postfix) =>
      (match B.Build(names, postfix)
       case Ok(t) => Some(Evaluate(t, history))
       case Err(_) => None)
    case _ => None
  }

  /** A boolean expression of the configuration, from its text: compiled, built, fed
      with statuses, and read. */
  method Serve(names: Names, text: string, history: seq<Status>, visitor: bool) returns (value: Option<Num>)
    ensures value == Served(names, text, history)
  {
    hide Evaluate, B.Build, ExpText.GetPostfixOf, Graph, Coherent;
    var compiled := ExpText.GetPostfix(text);
    if !compiled.Notation? { return None; }
    var builder := new Builder(names);
    var root := builder.Build(compiled.postfix);
    if root.Err? { return None; }
    ghost var tree := B.Build(names, compiled.postfix).value;
    builder.Run(history, visitor, root.value, tree);
    value := Some(Hard(root.value, builder.nodes));
  }

  /** What `Serve` computes on the text of an expression that the parser reads right and
      that has a meaning: the value of that meaning over the latest statuses. */
  lemma ServedAsMeant(names: Names, e: ExpPrinter.Expr, history: seq<Status>)
    requires ExpText.HasOperands(e) && ExpPrinter.Plain(e) && Meaning(names, e).Some?
    ensures Served(names, ExpText.Text(ExpPrinter.Print(e)), history) ==
            Some(Evaluate(ToTree(names, Meaning(names, e).value), history))
  {
    hide Evaluate, B.Build, ExpText.GetPostfixOf, ExpText.Text, ExpPrinter.Print, ExpPrinter.Postorder, Meaning;
    ExpText.TextCompilesIffPlain(e);
    BuiltAsMeant(names, e);
  }

  function Opposite(n: Num): Num { if n.NaN? then NaN else Real(-n.value) }

  /** The unary minus does nothing, so that `-e` is served as minus e only where that
      makes no difference. */
  lemma MinusIsDropped(names: Names, e: ExpPrinter.Expr, history: seq<Status>)
    requires Meaning(names, e).Some?
    ensures Meaning(names, ExpPrinter.Neg(e)).Some?
    ensures var v := Evaluate(ToTree(names, Meaning(names, e).value), history);
            Evaluate(ToTree(names, Meaning(names, ExpPrinter.Neg(e)).value), history) == Opposite(v)
            <==> v == NaN || v == Real(0.0)
  {
    hide Evaluate;
  }

  function TextOf(e: ExpPrinter.Expr): string { ExpText.Text(ExpPrinter.Print(e)) }

  /** The text of `-e` is served with the value of the text of e, whatever was received. */
  lemma MinusIsServedAsPlus(names: Names, e: ExpPrinter.Expr, history: seq<Status>)
    requires ExpText.HasOperands(e) && ExpPrinter.Plain(e) && Meaning(names, e).Some?
    ensures Served(names, TextOf(ExpPrinter.Neg(e)), history) == Served(names, TextOf(e), history)
    ensures Served(names, TextOf(e), history).Some?
  {
    hide Evaluate, Served;
    ServedAsMeant(names, e, history);
    ServedAsMeant(names, ExpPrinter.Neg(e), history);
  }
}

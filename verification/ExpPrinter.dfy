/** What the parser promises about expressions: an expression printed with only
    the parentheses that the precedence table asks for is parsed to its postorder,
    except in one family of expressions, which is characterised exactly. */
module ExpPrinter {
  import opened ExpTokens
  import opened ExpParser

  /** The operators that can stand between two operands. */
  type BinOp = op: Op | op != NegU && op != Bang witness Plus

  /** An expression. `Not` is written `!` when `bang` holds and `NOT` otherwise. */
  datatype Expr =
    | Leaf(word: string)
    | Neg(arg: Expr)
    | Not(bang: bool, arg: Expr)
    | Bin(op: BinOp, left: Expr, right: Expr)
    | Call(fn: Fn, args: Args)

  datatype Args = NoArgs | Arg(head: Expr, tail: Args)

  function Count(args: Args): nat {
    if args.NoArgs? then 0 else 1 + Count(args.tail)
  }

  /** How tightly the outermost operator of e binds. */
  function Level(e: Expr): nat {
    if e.Bin? then Precedence(e.op) else 6
  }

  function Print(e: Expr): seq<Token>
    decreases e, 0
  {
    match e
    case Leaf(word) => [Word(word)]
    case Neg(arg) => [Operator(Minus)] + Group(arg, 6)
    case Not(bang, arg) => [Operator(if bang then Bang else NotWord)] + Group(arg, 6)
    case Bin(op, left, right) =>
      Group(left, Precedence(op)) + [Operator(op)] + Group(right, Precedence(op) + 1)
    case Call(fn, args) => [Function(fn), Open] + PrintArgs(args) + [Close]
  }

  /** e where only operators of level q and above may stand: in parentheses if needed. */
  function Group(e: Expr, q: nat): seq<Token>
    decreases e, 1
  {
    if Level(e) < q then [Open] + Print(e) + [Close] else Print(e)
  }

  function PrintArgs(args: Args): seq<Token>
    decreases args, 0
  {
    if args.NoArgs? then [] else Print(args.head) + PrintMore(args.tail)
  }

  function PrintMore(args: Args): seq<Token>
    decreases args, 1
  {
    if args.NoArgs? then [] else [Comma] + Print(args.head) + PrintMore(args.tail)
  }

  /** The arity written for a call: get_postfix starts counting at one, so a call
      without arguments is given arity one too. */
  function ArityOf(args: Args): nat {
    if args.NoArgs? then 1 else Count(args)
  }

  function Postorder(e: Expr): seq<Token> {
    match e
    case Leaf(word) => [Word(word)]
    case Neg(arg) => Postorder(arg) + [Operator(NegU)]
    case Not(_, arg) => Postorder(arg) + [Operator(Bang)]
    case Bin(op, left, right) => Postorder(left) + Postorder(right) + [Operator(op)]
    case Call(fn, args) => PostorderArgs(args) + [Function(fn), Word(Decimal(ArityOf(args)))]
  }

  function PostorderArgs(args: Args): seq<Token> {
    if args.NoArgs? then [] else Postorder(args.head) + PostorderArgs(args.tail)
  }

  // ----------------------------------- expressions the parser gets right

  /** e starts with `-` or `NOT` used as a prefix. */
  predicate LeadsWithPrefix(e: Expr) {
    match e
    case Leaf(_) => false
    case Neg(_) => true
    case Not(bang, _) => !bang
    case Bin(op, left, _) => Level(left) >= Precedence(op) && LeadsWithPrefix(left)
    case Call(_, _) => false
  }

  /** No argument after the first of any call starts with `-` or `NOT`: the parser
      never takes the token after a comma for a prefix. */
  predicate Plain(e: Expr) {
    match e
    case Leaf(_) => true
    case Neg(arg) => Plain(arg)
    case Not(_, arg) => Plain(arg)
    case Bin(_, left, right) => Plain(left) && Plain(right)
    case Call(_, args) => args.Arg? ==> Plain(args.head) && PlainMore(args.tail)
  }

  predicate PlainMore(args: Args) {
    args.Arg? ==> !LeadsWithPrefix(args.head) && Plain(args.head) && PlainMore(args.tail)
  }

  // --------------------------------------------- what parsing e leaves behind

  /** The operators of e still on the stack when e was read, top first. */
  function Pending(e: Expr): seq<Token>
    decreases e, 0
  {
    match e
    case Leaf(_) => []
    case Neg(arg) => GroupPending(arg, 6) + [Operator(NegU)]
    case Not(_, arg) => GroupPending(arg, 6) + [Operator(Bang)]
    case Bin(op, _, right) => GroupPending(right, Precedence(op) + 1) + [Operator(op)]
    case Call(_, _) => []
  }

  function GroupPending(e: Expr, q: nat): seq<Token>
    decreases e, 1
  {
    if Level(e) < q then [] else Pending(e)
  }

  /** The part of the postorder of e already output when e was read. */
  function Emitted(e: Expr): seq<Token>
    decreases e, 0
  {
    match e
    case Leaf(_) => Postorder(e)
    case Neg(arg) => GroupEmitted(arg, 6)
    case Not(_, arg) => GroupEmitted(arg, 6)
    case Bin(op, left, right) => Postorder(left) + GroupEmitted(right, Precedence(op) + 1)
    case Call(_, _) => Postorder(e)
  }

  function GroupEmitted(e: Expr, q: nat): seq<Token>
    decreases e, 1
  {
    if Level(e) < q then Postorder(e) else Emitted(e)
  }

  predicate Binding(ops: seq<Token>, p: nat) {
    forall i :: 0 <= i < |ops| ==> ops[i].Operator? && p <= Precedence(ops[i].op)
  }

  lemma {:induction false} PendingBinds(e: Expr)
    ensures Binding(Pending(e), Level(e))
    decreases e, 0
  {
    match e
    case Leaf(_) =>
    case Neg(arg) => GroupPendingBinds(arg, 6);
    case Not(_, arg) => GroupPendingBinds(arg, 6);
    case Bin(op, _, right) => GroupPendingBinds(right, Precedence(op) + 1);
    case Call(_, _) =>
  }

  lemma {:induction false} GroupPendingBinds(e: Expr, q: nat)
    ensures Binding(GroupPending(e, q), q)
    decreases e, 1
  {
    PendingBinds(e);
  }

  lemma {:induction false} EmittedThenPending(e: Expr)
    ensures Emitted(e) + Pending(e) == Postorder(e)
    decreases e, 0
  {
    match e
    case Leaf(_) =>
    case Neg(arg) => GroupEmittedThenPending(arg, 6);
    case Not(_, arg) => GroupEmittedThenPending(arg, 6);
    case Bin(op, left, right) => GroupEmittedThenPending(right, Precedence(op) + 1);
    case Call(_, _) =>
  }

  lemma {:induction false} GroupEmittedThenPending(e: Expr, q: nat)
    ensures GroupEmitted(e, q) + GroupPending(e, q) == Postorder(e)
    decreases e, 1
  {
    EmittedThenPending(e);
  }

  // -------------------------------------------- operators on top of a stack

  function Onto(ops: seq<Token>, stack: Stack<Token>): Stack<Token>
  {
    if ops == [] then stack else Cons(ops[0], Onto(ops[1..], stack))
  }

  lemma {:induction false} OntoPush(ops: seq<Token>, t: Token, stack: Stack<Token>)
    ensures Onto(ops + [t], stack) == Onto(ops, Cons(t, stack))
  {
    if ops == [] {
      assert [t][1..] == [];
    } else {
      assert (ops + [t])[1..] == ops[1..] + [t];
      OntoPush(ops[1..], t, stack);
    }
  }

  /** Operators on top of the stack come off in order, whichever way it is popped. */
  lemma {:induction false} PopOnto(ops: seq<Token>, out: seq<Token>, stack: Stack<Token>, p: nat)
    requires Binding(ops, p)
    ensures PopOperators(out, Onto(ops, stack), p) == PopOperators(out + ops, stack, p)
    ensures PopToOpen(out, Onto(ops, stack)) == PopToOpen(out + ops, stack)
    ensures Drain(out, Onto(ops, stack)) == Drain(out + ops, stack)
    ensures Functions(Onto(ops, stack)) == Functions(stack)
  {
    if ops == [] {
      assert out + ops == out;
    } else {
      assert (out + [ops[0]]) + ops[1..] == out + ops;
      PopOnto(ops[1..], out + [ops[0]], stack, p);
    }
  }

  /** What e left on the stack completes its postorder. */
  lemma Release(e: Expr, out: seq<Token>, stack: Stack<Token>, p: nat)
    requires p <= Level(e)
    ensures var out', stack' := out + Emitted(e), Onto(Pending(e), stack);
            && PopOperators(out', stack', p) == PopOperators(out + Postorder(e), stack, p)
            && PopToOpen(out', stack') == PopToOpen(out + Postorder(e), stack)
            && Drain(out', stack') == Drain(out + Postorder(e), stack)
  {
    hide Postorder, Emitted, Pending, Onto, PopOperators, PopToOpen, Drain;
    PendingBinds(e);
    PopOnto(Pending(e), out + Emitted(e), stack, p);
    EmittedThenPending(e);
    assert (out + Emitted(e)) + Pending(e) == out + Postorder(e);
  }

  /** The state after e was read from s. */
  function Read(e: Expr, s: State): (r: State)
    requires ArityInv(s)
    ensures ArityInv(r)
  {
    PendingBinds(e);
    PopOnto(Pending(e), [], s.stack, Level(e));
    State(s.out + Emitted(e), Onto(Pending(e), s.stack), s.arity, false)
  }

  function ReadGroup(e: Expr, q: nat, s: State): (r: State)
    requires ArityInv(s)
    ensures ArityInv(r)
  {
    if Level(e) < q then State(s.out + Postorder(e), s.stack, s.arity, false) else Read(e, s)
  }

  /** The operator on top of the stack would not be popped by one of precedence p. */
  predicate Below(stack: Stack<Token>, p: nat) {
    stack.Cons? && stack.top.Operator? ==> Precedence(stack.top.op) < p
  }

  /** s can read e: its stack lets e's operators on, and it knows a prefix when it sees one. */
  ghost predicate Ready(e: Expr, s: State) {
    && ArityInv(s)
    && !(s.stack.Cons? && s.stack.top.Function?)
    && (e.Bin? ==> Below(s.stack, Level(e)))
    && (s.unary || (s.stack.Cons? && s.stack.top == Open && !LeadsWithPrefix(e)))
  }

  // ------------------------------------------------- parsing what was printed

  lemma RunStep(s: State, t: Token, rest: seq<Token>)
    requires ArityInv(s)
    ensures Run(s, [t] + rest) == if Step(s, t).Ok? then Run(Step(s, t).value, rest) else Step(s, t)
  {
    assert ([t] + rest)[0] == t && ([t] + rest)[1..] == rest;
  }

  /** Reading a printed expression, whatever follows it. */
  lemma {:induction false} Parse(e: Expr, s: State, rest: seq<Token>)
    requires Plain(e) && Ready(e, s)
    ensures Run(s, Print(e) + rest) == Run(Read(e, s), rest)
    decreases e, 1
  {
    match e
    case Leaf(word) => RunStep(s, Word(word), rest);
    case Neg(arg) => ParsePrefix(e, arg, Minus, NegU, s, rest);
    case Not(bang, arg) => ParsePrefix(e, arg, if bang then Bang else NotWord, Bang, s, rest);
    case Bin(op, left, right) => ParseBin(e, s, rest);
    case Call(fn, args) => ParseCall(e, s, rest);
  }

  lemma {:induction false} ParsePrefix(e: Expr, arg: Expr, op: Op, mark: Op, s: State, rest: seq<Token>)
    requires e == Neg(arg) || (e.Not? && e.arg == arg)
    requires op == (if e.Neg? then Minus else if e.bang then Bang else NotWord)
    requires mark == (if e.Neg? then NegU else Bang)
    requires Plain(e) && Ready(e, s)
    ensures Run(s, Print(e) + rest) == Run(Read(e, s), rest)
    decreases e, 0
  {
    hide Run;
    assert Print(e) + rest == [Operator(op)] + (Group(arg, 6) + rest);
    RunStep(s, Operator(op), Group(arg, 6) + rest);
    var s1 := State(s.out, Cons(Operator(mark), s.stack), s.arity, true);
    assert Step(s, Operator(op)) == Ok(s1);
    ParseGroup(arg, 6, s1, rest);
    ReadPrefix(e, arg, mark, s);
  }

  lemma ReadPrefix(e: Expr, arg: Expr, mark: Op, s: State)
    requires e == Neg(arg) || (e.Not? && e.arg == arg)
    requires mark == (if e.Neg? then NegU else Bang)
    requires ArityInv(s)
    ensures ReadGroup(arg, 6, State(s.out, Cons(Operator(mark), s.stack), s.arity, true)) == Read(e, s)
  {
    OntoPush(GroupPending(arg, 6), Operator(mark), s.stack);
    assert Pending(e) == GroupPending(arg, 6) + [Operator(mark)];
    assert Emitted(e) == GroupEmitted(arg, 6);
    if Level(arg) < 6 {
      assert Onto([], Cons(Operator(mark), s.stack)) == Cons(Operator(mark), s.stack);
    }
  }

  lemma {:induction false} ParseBin(e: Expr, s: State, rest: seq<Token>)
    requires e.Bin? && Plain(e) && Ready(e, s)
    ensures Run(s, Print(e) + rest) == Run(Read(e, s), rest)
    decreases e, 0
  {
    hide Run, Step, PopOperators, PopToOpen;
    var Bin(op, left, right) := e;
    var p := Precedence(op);
    var more := Group(right, p + 1) + rest;
    assert Print(e) + rest == Group(left, p) + ([Operator(op)] + more);
    ParseGroup(left, p, s, [Operator(op)] + more);
    var s1 := ReadGroup(left, p, s);
    RunStep(s1, Operator(op), more);
    StepBinary(left, op, s);
    var s2 := State(s.out + Postorder(left), Cons(Operator(op), s.stack), s.arity, true);
    ParseGroup(right, p + 1, s2, rest);
    ReadRight(e, s);
  }

  lemma StepBinary(left: Expr, op: BinOp, s: State)
    requires ArityInv(s) && Below(s.stack, Precedence(op))
    ensures Step(ReadGroup(left, Precedence(op), s), Operator(op)) ==
            Ok(State(s.out + Postorder(left), Cons(Operator(op), s.stack), s.arity, true))
  {
    var p := Precedence(op);
    if Level(left) >= p {
      Release(left, s.out, s.stack, p);
    }
    assert PopOperators(s.out + Postorder(left), s.stack, p) == (s.out + Postorder(left), s.stack);
  }

  lemma ReadRight(e: Expr, s: State)
    requires e.Bin? && ArityInv(s)
    ensures var s2 := State(s.out + Postorder(e.left), Cons(Operator(e.op), s.stack), s.arity, true);
            ReadGroup(e.right, Precedence(e.op) + 1, s2) == Read(e, s)
  {
    var q := Precedence(e.op) + 1;
    OntoPush(GroupPending(e.right, q), Operator(e.op), s.stack);
    assert s.out + Postorder(e.left) + GroupEmitted(e.right, q) == s.out + Emitted(e);
    if Level(e.right) < q {
      assert Onto([], Cons(Operator(e.op), s.stack)) == Cons(Operator(e.op), s.stack);
    }
  }

  lemma {:induction false} ParseGroup(e: Expr, q: nat, s: State, rest: seq<Token>)
    requires Plain(e) && ArityInv(s) && !(s.stack.Cons? && s.stack.top.Function?)
    requires Level(e) >= q ==> Ready(e, s)
    ensures Run(s, Group(e, q) + rest) == Run(ReadGroup(e, q, s), rest)
    decreases e, 2
  {
    hide Run;
    if Level(e) >= q {
      Parse(e, s, rest);
    } else {
      assert Group(e, q) + rest == [Open] + (Print(e) + ([Close] + rest));
      RunStep(s, Open, Print(e) + ([Close] + rest));
      var s1 := State(s.out, Cons(Open, s.stack), s.arity, true);
      Parse(e, s1, [Close] + rest);
      RunStep(Read(e, s1), Close, rest);
      StepGroupEnd(e, s);
    }
  }

  /** A parenthesis that no function precedes on the stack is closed. */
  lemma StepGroupEnd(e: Expr, s: State)
    requires ArityInv(s)
    requires !(s.stack.Cons? && s.stack.top.Function?)
    ensures Step(Read(e, State(s.out, Cons(Open, s.stack), s.arity, true)), Close) ==
            Ok(State(s.out + Postorder(e), s.stack, s.arity, false))
  {
    var stack := Cons(Open, s.stack);
    Release(e, s.out, stack, 0);
    assert PopToOpen(s.out + Postorder(e), stack) == (s.out + Postorder(e), stack);
  }

  lemma {:induction false} ParseCall(e: Expr, s: State, rest: seq<Token>)
    requires e.Call? && Plain(e) && Ready(e, s)
    ensures Run(s, Print(e) + rest) == Run(Read(e, s), rest)
    decreases e, 0
  {
    hide Run;
    var Call(fn, args) := e;
    var more := PrintArgs(args) + [Close] + rest;
    assert Print(e) + rest == [Function(fn)] + ([Open] + more);
    RunStep(s, Function(fn), [Open] + more);
    var s1 := State(s.out, Cons(Function(fn), s.stack), Cons(1, s.arity), false);
    RunStep(s1, Open, more);
    var s2 := State(s.out, Cons(Open, s1.stack), s1.arity, true);
    if args.NoArgs? {
      assert more == [Close] + rest;
      RunStep(s2, Close, rest);
      assert s.out + Emitted(e) == s.out + [Function(fn), Word(Decimal(1))];
    } else {
      assert more == Print(args.head) + (PrintMore(args.tail) + [Close] + rest);
      ParseArgs(args.head, args.tail, s2, rest);
      assert s.out + Emitted(e) ==
             s.out + PostorderArgs(args) + [Function(fn), Word(Decimal(1 + Count(args.tail)))];
    }
  }

  /** Reading the arguments of a call, from after its left parenthesis (or a comma)
      to after its right one. */
  lemma {:induction false} ParseArgs(head: Expr, tail: Args, s: State, rest: seq<Token>)
    requires Ready(head, s) && Plain(head) && PlainMore(tail)
    requires s.stack.Cons? && s.stack.top == Open
    requires s.stack.rest.Cons? && s.stack.rest.top.Function?
    requires s.arity.Cons?
    ensures var below := s.stack.rest;
            var s' := State(s.out + PostorderArgs(Arg(head, tail)) +
                              [below.top, Word(Decimal(s.arity.top + Count(tail)))],
                            below.rest, s.arity.rest, false);
            ArityInv(s') && Run(s, Print(head) + (PrintMore(tail) + [Close] + rest)) == Run(s', rest)
    decreases Arg(head, tail), 0
  {
    hide Run, Decimal, PopOperators, Emitted, Pending, Print, Onto;
    var below := s.stack.rest;
    var more := PrintMore(tail) + [Close] + rest;
    Parse(head, s, more);
    var s1 := Read(head, s);
    Release(head, s.out, s.stack, 0);
    assert PopToOpen(s1.out, s1.stack) == (s.out + Postorder(head), s.stack);
    assert Functions(s.stack) == 1 + Functions(below.rest);
    if tail.NoArgs? {
      assert more == [Close] + rest;
      RunStep(s1, Close, rest);
      assert s.out + PostorderArgs(Arg(head, tail)) == s.out + Postorder(head);
    } else {
      var more' := PrintMore(tail.tail) + [Close] + rest;
      assert more == [Comma] + (Print(tail.head) + more');
      RunStep(s1, Comma, Print(tail.head) + more');
      var s2 := State(s.out + Postorder(head), s.stack, Cons(s.arity.top + 1, s.arity.rest), false);
      assert Ready(tail.head, s2);
      ParseArgs(tail.head, tail.tail, s2, rest);
      assert s2.out + PostorderArgs(tail) == s.out + PostorderArgs(Arg(head, tail));
    }
  }

  lemma PlainIsParsed(e: Expr)
    requires Plain(e)
    ensures Postfix(Print(e)) == Ok(Postorder(e))
  {
    Parse(e, START, []);
    assert Print(e) + [] == Print(e);
    Release(e, [], Nil, 0);
    assert [] + Emitted(e) == Emitted(e) && [] + Postorder(e) == Postorder(e);
  }

  // ------------------------------------------- the expressions it gets wrong

  /** The prefix operators of e. */
  function Prefixes(e: Expr): nat {
    match e
    case Leaf(_) => 0
    case Neg(arg) => 1 + Prefixes(arg)
    case Not(_, arg) => 1 + Prefixes(arg)
    case Bin(_, left, right) => Prefixes(left) + Prefixes(right)
    case Call(_, args) => PrefixesIn(args)
  }

  function PrefixesIn(args: Args): nat {
    if args.NoArgs? then 0 else Prefixes(args.head) + PrefixesIn(args.tail)
  }

  /** The later arguments of calls in e that start with `-` or `NOT`. */
  function Misread(e: Expr): nat {
    match e
    case Leaf(_) => 0
    case Neg(arg) => Misread(arg)
    case Not(_, arg) => Misread(arg)
    case Bin(_, left, right) => Misread(left) + Misread(right)
    case Call(_, args) => if args.NoArgs? then 0 else Misread(args.head) + MisreadMore(args.tail)
  }

  function MisreadMore(args: Args): nat {
    if args.NoArgs? then 0
    else (if LeadsWithPrefix(args.head) then 1 else 0) + Misread(args.head) + MisreadMore(args.tail)
  }

  lemma PlainIffNothingMisread(e: Expr)
    ensures Plain(e) <==> Misread(e) == 0
    decreases e
  {
    match e
    case Leaf(_) =>
    case Neg(arg) => PlainIffNothingMisread(arg);
    case Not(_, arg) => PlainIffNothingMisread(arg);
    case Bin(_, left, right) => PlainIffNothingMisread(left); PlainIffNothingMisread(right);
    case Call(_, args) =>
      if args.Arg? {
        PlainIffNothingMisread(args.head);
        PlainMoreIffNothingMisread(args.tail);
      }
  }

  lemma PlainMoreIffNothingMisread(args: Args)
    ensures PlainMore(args) <==> MisreadMore(args) == 0
    decreases args
  {
    if args.Arg? {
      PlainIffNothingMisread(args.head);
      PlainMoreIffNothingMisread(args.tail);
    }
  }

  /** The tokens the parser takes for prefixes. */
  function Marks(tokens: seq<Token>, unary: bool): nat {
    var marked := multiset(MarkAll(tokens, unary));
    marked[Operator(NegU)] + marked[Operator(Bang)]
  }

  lemma MarksStep(t: Token, rest: seq<Token>, unary: bool)
    ensures Marks([t] + rest, unary) ==
            Marks(rest, t.Operator? || t == Open) +
            if t.Operator? && Marked(t.op, unary) in {NegU, Bang} then 1 else 0
  {
    assert ([t] + rest)[0] == t && ([t] + rest)[1..] == rest;
  }

  /** Of a printed expression the parser misses exactly the prefixes `Misread` counts,
      and the leading one when it stands where no prefix is expected. */
  lemma {:induction false} MarksOfPrint(e: Expr, unary: bool, rest: seq<Token>)
    ensures Marks(Print(e) + rest, unary) + Misread(e) + (if !unary && LeadsWithPrefix(e) then 1 else 0) ==
            Prefixes(e) + Marks(rest, false)
    decreases e, 1
  {
    hide Marks;
    match e
    case Leaf(word) => MarksStep(Word(word), rest, unary);
    case Neg(arg) =>
      assert Print(e) + rest == [Operator(Minus)] + (Group(arg, 6) + rest);
      MarksStep(Operator(Minus), Group(arg, 6) + rest, unary);
      MarksOfGroup(arg, 6, true, rest);
    case Not(bang, arg) =>
      var t := Operator(if bang then Bang else NotWord);
      assert Print(e) + rest == [t] + (Group(arg, 6) + rest);
      MarksStep(t, Group(arg, 6) + rest, unary);
      MarksOfGroup(arg, 6, true, rest);
    case Bin(op, left, right) => MarksOfBin(op, left, right, unary, rest);
    case Call(fn, args) => MarksOfCall(fn, args, unary, rest);
  }

  lemma {:induction false} MarksOfBin(op: BinOp, left: Expr, right: Expr, unary: bool, rest: seq<Token>)
    ensures var e := Bin(op, left, right);
            Marks(Print(e) + rest, unary) + Misread(e) + (if !unary && LeadsWithPrefix(e) then 1 else 0) ==
            Prefixes(e) + Marks(rest, false)
    decreases Bin(op, left, right), 0
  {
    hide Marks;
    var p := Precedence(op);
    var more := Group(right, p + 1) + rest;
    assert Print(Bin(op, left, right)) + rest == Group(left, p) + ([Operator(op)] + more);
    MarksOfGroup(left, p, unary, [Operator(op)] + more);
    MarksStep(Operator(op), more, false);
    MarksOfGroup(right, p + 1, true, rest);
  }

  lemma {:induction false} MarksOfCall(fn: Fn, args: Args, unary: bool, rest: seq<Token>)
    ensures var e := Call(fn, args);
            Marks(Print(e) + rest, unary) + Misread(e) == Prefixes(e) + Marks(rest, false)
    decreases Call(fn, args), 0
  {
    hide Marks;
    var more := PrintArgs(args) + ([Close] + rest);
    assert Print(Call(fn, args)) + rest == [Function(fn)] + ([Open] + more);
    MarksStep(Function(fn), [Open] + more, unary);
    MarksStep(Open, more, false);
    if args.NoArgs? {
      assert more == [Close] + rest;
      MarksStep(Close, rest, true);
    } else {
      var more' := PrintMore(args.tail) + ([Close] + rest);
      assert more == Print(args.head) + more';
      MarksOfPrint(args.head, true, more');
      MarksOfMore(args.tail, [Close] + rest);
      MarksStep(Close, rest, false);
    }
  }

  lemma {:induction false} MarksOfGroup(e: Expr, q: nat, unary: bool, rest: seq<Token>)
    ensures Marks(Group(e, q) + rest, unary) + Misread(e) +
            (if !unary && Level(e) >= q && LeadsWithPrefix(e) then 1 else 0) ==
            Prefixes(e) + Marks(rest, false)
    decreases e, 2
  {
    hide Marks;
    if Level(e) >= q {
      MarksOfPrint(e, unary, rest);
    } else {
      assert Group(e, q) + rest == [Open] + (Print(e) + ([Close] + rest));
      MarksStep(Open, Print(e) + ([Close] + rest), unary);
      MarksOfPrint(e, true, [Close] + rest);
      MarksStep(Close, rest, false);
    }
  }

  lemma {:induction false} MarksOfMore(args: Args, rest: seq<Token>)
    ensures Marks(PrintMore(args) + rest, false) + MisreadMore(args) == PrefixesIn(args) + Marks(rest, false)
    decreases args, 0
  {
    hide Marks;
    if args.NoArgs? {
      assert PrintMore(args) + rest == rest;
    } else {
      var more := PrintMore(args.tail) + rest;
      assert PrintMore(args) + rest == [Comma] + (Print(args.head) + more);
      MarksStep(Comma, Print(args.head) + more, false);
      MarksOfPrint(args.head, false, more);
      MarksOfMore(args.tail, rest);
    }
  }

  /** The prefix operators of a notation. */
  function PrefixesOf(ts: seq<Token>): nat { multiset(ts)[Operator(NegU)] + multiset(ts)[Operator(Bang)] }

  lemma PrefixesOfBoth(a: seq<Token>, b: seq<Token>)
    ensures PrefixesOf(a + b) == PrefixesOf(a) + PrefixesOf(b)
  {}

  lemma PrefixesOfOne(t: Token, n: Token)
    ensures PrefixesOf([t]) == if t in {Operator(NegU), Operator(Bang)} then 1 else 0
    ensures t.Function? && n.Word? ==> PrefixesOf([t, n]) == 0
    ensures PrefixesOf([]) == 0
  {}

  lemma {:induction false} PostorderPrefixes(e: Expr)
    ensures PrefixesOf(Postorder(e)) == Prefixes(e)
    decreases e
  {
    hide PrefixesOf;
    match e
    case Leaf(word) => PrefixesOfOne(Word(word), Close);
    case Neg(arg) =>
      PostorderPrefixes(arg);
      PrefixesOfBoth(Postorder(arg), [Operator(NegU)]);
      PrefixesOfOne(Operator(NegU), Close);
    case Not(_, arg) =>
      PostorderPrefixes(arg);
      PrefixesOfBoth(Postorder(arg), [Operator(Bang)]);
      PrefixesOfOne(Operator(Bang), Close);
    case Bin(op, left, right) =>
      PostorderPrefixes(left);
      PostorderPrefixes(right);
      PrefixesOfBoth(Postorder(left), Postorder(right));
      PrefixesOfBoth(Postorder(left) + Postorder(right), [Operator(op)]);
      PrefixesOfOne(Operator(op), Close);
    case Call(fn, args) =>
      var call := [Function(fn), Word(Decimal(ArityOf(args)))];
      PostorderArgsPrefixes(args);
      PrefixesOfBoth(PostorderArgs(args), call);
      PrefixesOfOne(call[0], call[1]);
  }

  lemma {:induction false} PostorderArgsPrefixes(args: Args)
    ensures PrefixesOf(PostorderArgs(args)) == PrefixesIn(args)
    decreases args
  {
    hide PrefixesOf;
    if args.Arg? {
      PostorderPrefixes(args.head);
      PostorderArgsPrefixes(args.tail);
      PrefixesOfBoth(Postorder(args.head), PostorderArgs(args.tail));
    } else {
      PrefixesOfOne(Close, Close);
    }
  }

  lemma MisreadIsNotPostorder(e: Expr)
    requires !Plain(e)
    ensures Postfix(Print(e)) != Ok(Postorder(e))
  {
    PlainIffNothingMisread(e);
    MarksOfPrint(e, true, []);
    assert Print(e) + [] == Print(e);
    PostorderPrefixes(e);
    if Postfix(Print(e)).Ok? {
      PostfixConserves(Print(e), Operator(NegU));
      PostfixConserves(Print(e), Operator(Bang));
    }
  }

  /** The main result: a printed expression is parsed to its postorder if and only
      if no argument after the first of a call starts with `-` or `NOT`. */
  lemma ParsedIffPlain(e: Expr)
    ensures Postfix(Print(e)) == Ok(Postorder(e)) <==> Plain(e)
  {
    if Plain(e) {
      PlainIsParsed(e);
    } else {
      MisreadIsNotPostorder(e);
    }
  }

  /** The smallest such expression: the second argument of MAX(a, -b) is read as a subtraction. */
  lemma MinusAfterComma()
    ensures var e := Call(MaxFn, Arg(Leaf("a"), Arg(Neg(Leaf("b")), NoArgs)));
            !Plain(e) && Postfix(Print(e)) != Ok(Postorder(e))
  {
    var e := Call(MaxFn, Arg(Leaf("a"), Arg(Neg(Leaf("b")), NoArgs)));
    assert !PlainMore(e.args.tail);
    MisreadIsNotPostorder(e);
  }
}

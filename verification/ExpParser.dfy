/** bam/src/exp_parser.cc: the shunting-yard that turns a token list into postfix
    notation, with its unary detection and its stack of function arities. */
module ExpParser {
  import opened ExpTokens

  /** A std::stack. */
  datatype Stack<T> = Nil | Cons(top: T, rest: Stack<T>)

  /** The two ways get_postfix throws. */
  datatype Error = MismatchedParentheses | CommaOutsideCall

  datatype Result<T> = Ok(value: T) | Err(error: Error)

  /** The loop variables of get_postfix. */
  datatype State = State(out: seq<Token>, stack: Stack<Token>, arity: Stack<nat>, unary: bool)

  const START := State([], Nil, Nil, true)

  function Precedence(op: Op): (p: nat)
    ensures 2 <= p <= 6
  {
    match op
    case AmpAmp | AndWord | PipePipe | OrWord | Caret | XorWord => 2
    case Is | NotWord | Gt | Ge | Lt | Le | EqEq | NotEq => 3
    case Plus | Minus => 4
    case Star | Slash | Percent => 5
    case NegU | Bang => 6
  }

  function Decimal(n: nat): (s: string)
    ensures |s| > 0 && forall i :: 0 <= i < |s| ==> '0' <= s[i] <= '9'
  {
    var digit := [(n % 10) as char + '0'];
    if n < 10 then digit else Decimal(n / 10) + digit
  }

  /** std::strtol on a string of digits. */
  function ReadDecimal(s: string): int
    requires forall i :: 0 <= i < |s| ==> '0' <= s[i] <= '9'
  {
    if s == "" then 0
    else 10 * ReadDecimal(s[..|s| - 1]) + (s[|s| - 1] - '0') as int
  }

  lemma {:induction false} ReadDecimalOfDecimal(n: nat)
    ensures ReadDecimal(Decimal(n)) == n
  {
    var s := Decimal(n);
    if n < 10 {
      assert s[..|s| - 1] == "";
    } else {
      ReadDecimalOfDecimal(n / 10);
      assert s[..|s| - 1] == Decimal(n / 10);
    }
  }

  // ---------------------------------------------------------------- machine

  function Functions(stack: Stack<Token>): nat {
    match stack
    case Nil => 0
    case Cons(t, rest) => Functions(rest) + if t.Function? then 1 else 0
  }

  function Depth<T>(stack: Stack<T>): nat {
    match stack
    case Nil => 0
    case Cons(_, rest) => 1 + Depth(rest)
  }

  function Opens(stack: Stack<Token>): nat {
    match stack
    case Nil => 0
    case Cons(t, rest) => Opens(rest) + if t == Open then 1 else 0
  }

  /** What keeps arity.top() defined: no function waits on the stack without a counter. */
  ghost predicate ArityInv(s: State) {
    Functions(s.stack) <= Depth(s.arity)
  }

  /** Pops operators of precedence at least p onto the output. */
  function PopOperators(out: seq<Token>, stack: Stack<Token>, p: nat): (r: (seq<Token>, Stack<Token>))
    ensures Functions(r.1) == Functions(stack) && Opens(r.1) == Opens(stack)
    decreases stack
  {
    if stack.Cons? && stack.top.Operator? && p <= Precedence(stack.top.op)
    then PopOperators(out + [stack.top], stack.rest, p)
    else (out, stack)
  }

  /** Pops everything above the nearest left parenthesis onto the output. */
  function PopToOpen(out: seq<Token>, stack: Stack<Token>): (r: (seq<Token>, Stack<Token>))
    ensures Functions(r.1) <= Functions(stack) && Opens(r.1) == Opens(stack)
    ensures r.1.Cons? <==> Opens(stack) > 0
    ensures r.1.Cons? ==> r.1.top == Open
    decreases stack
  {
    if stack.Cons? && stack.top != Open
    then PopToOpen(out + [stack.top], stack.rest)
    else (out, stack)
  }

  /** How an operator token is pushed. */
  function Marked(op: Op, unary: bool): Op {
    if unary && op == Minus then NegU
    else if unary && (op == NotWord || op == Bang) then Bang
    else op
  }

  function Prefix(op: Op, unary: bool): bool {
    unary && (op == Minus || op == NotWord || op == Bang)
  }

  /** One turn of the loop. That it is defined for every token in every state
      keeping `ArityInv`, and keeps it, is what makes `arity.top()` safe. */
  function Step(s: State, t: Token): (r: Result<State>)
    requires ArityInv(s)
    ensures r.Ok? ==> ArityInv(r.value)
  {
    match t
    case Function(_) => Ok(State(s.out, Cons(t, s.stack), Cons(1, s.arity), false))
    case Comma =>
      var (out, stack) := PopToOpen(s.out, s.stack);
      if stack.Nil? then Err(MismatchedParentheses)
      else if s.arity.Nil? then Err(CommaOutsideCall)
      else Ok(State(out, stack, Cons(s.arity.top + 1, s.arity.rest), false))
    case Operator(op) =>
      var (out, stack) :=
        if Prefix(op, s.unary) then (s.out, s.stack)
        else PopOperators(s.out, s.stack, Precedence(op));
      Ok(State(out, Cons(Operator(Marked(op, s.unary)), stack), s.arity, true))
    case Open => Ok(State(s.out, Cons(Open, s.stack), s.arity, true))
    case Close =>
      var (out, stack) := PopToOpen(s.out, s.stack);
      if stack.Nil? then Err(MismatchedParentheses)
      else if stack.rest.Cons? && stack.rest.top.Function? then
        assert Functions(stack) == Functions(stack.rest.rest) + 1;
        Ok(State(out + [stack.rest.top, Word(Decimal(s.arity.top))],
                 stack.rest.rest, s.arity.rest, false))
      else Ok(State(out, stack.rest, s.arity, false))
    case Word(_) => Ok(State(s.out + [t], s.stack, s.arity, false))
  }

  function Run(s: State, tokens: seq<Token>): (r: Result<State>)
    requires ArityInv(s)
    ensures r.Ok? ==> ArityInv(r.value)
    decreases |tokens|
  {
    if tokens == [] then Ok(s)
    else
      var next := Step(s, tokens[0]);
      if next.Err? then next else Run(next.value, tokens[1..])
  }

  /** The final loop: everything left on the stack goes out, top first. */
  function Drain(out: seq<Token>, stack: Stack<Token>): Result<seq<Token>>
    decreases stack
  {
    match stack
    case Nil => Ok(out)
    case Cons(t, rest) => if t == Open then Err(MismatchedParentheses) else Drain(out + [t], rest)
  }

  /** The postfix notation of a token list, or the error get_postfix throws. */
  function Postfix(tokens: seq<Token>): Result<seq<Token>> {
    var r := Run(START, tokens);
    if r.Err? then Err(r.error) else Drain(r.value.out, r.value.stack)
  }

  // -------------------------------------------------------- binding powers

  /** The binary operators, from the loosest class to the tightest. */
  const LOGICAL: set<string> := {"&&", "AND", "||", "OR", "^", "XOR"}
  const COMPARING: set<string> := {"IS", "NOT", ">", ">=", "<", "<=", "==", "!="}
  const ADDING: set<string> := {"+", "-"}
  const MULTIPLYING: set<string> := {"*", "/", "%"}

  predicate IsBinary(o: string) { o in LOGICAL + COMPARING + ADDING + MULTIPLYING }

  /** o2 binds tighter than o1. */
  predicate Tighter(o2: string, o1: string) {
    || (o1 in LOGICAL && o2 in COMPARING + ADDING + MULTIPLYING)
    || (o1 in COMPARING && o2 in ADDING + MULTIPLYING)
    || (o1 in ADDING && o2 in MULTIPLYING)
  }

  lemma LogicalClass(o: string)
    requires o in LOGICAL
    ensures Classify(o).Operator? && Precedence(Classify(o).op) == 2 && Marked(Classify(o).op, false) == Classify(o).op
  {
    hide Classify;
    if o == "&&" {
      ClassifySpellOp(AmpAmp);
    } else if o == "AND" {
      ClassifySpellOp(AndWord);
    } else if o == "||" {
      ClassifySpellOp(PipePipe);
    } else if o == "OR" {
      ClassifySpellOp(OrWord);
    } else if o == "^" {
      ClassifySpellOp(Caret);
    } else {
      ClassifySpellOp(XorWord);
    }
  }

  lemma ComparingClass(o: string)
    requires o in COMPARING
    ensures Classify(o).Operator? && Precedence(Classify(o).op) == 3 && Marked(Classify(o).op, false) == Classify(o).op
  {
    hide Classify;
    if o == "IS" {
      ClassifySpellOp(Is);
    } else if o == "NOT" {
      ClassifySpellOp(NotWord);
    } else if o == ">" {
      ClassifySpellOp(Gt);
    } else if o == ">=" {
      ClassifySpellOp(Ge);
    } else if o == "<" {
      ClassifySpellOp(Lt);
    } else if o == "<=" {
      ClassifySpellOp(Le);
    } else if o == "==" {
      ClassifySpellOp(EqEq);
    } else {
      ClassifySpellOp(NotEq);
    }
  }

  lemma AddingClass(o: string)
    requires o in ADDING
    ensures Classify(o).Operator? && Precedence(Classify(o).op) == 4 && Marked(Classify(o).op, false) == Classify(o).op
  {
    hide Classify;
    if o == "+" {
      ClassifySpellOp(Plus);
    } else {
      ClassifySpellOp(Minus);
    }
  }

  lemma MultiplyingClass(o: string)
    requires o in MULTIPLYING
    ensures Classify(o).Operator? && Precedence(Classify(o).op) == 5 && Marked(Classify(o).op, false) == Classify(o).op
  {
    hide Classify;
    if o == "*" {
      ClassifySpellOp(Star);
    } else if o == "/" {
      ClassifySpellOp(Slash);
    } else {
      ClassifySpellOp(Percent);
    }
  }

  /** The table gives the tighter class the higher number. */
  lemma ClassOf(o: string)
    requires IsBinary(o)
    ensures Classify(o).Operator? && Marked(Classify(o).op, false) == Classify(o).op
    ensures o in LOGICAL <==> Precedence(Classify(o).op) == 2
    ensures o in COMPARING <==> Precedence(Classify(o).op) == 3
    ensures o in ADDING <==> Precedence(Classify(o).op) == 4
    ensures o in MULTIPLYING <==> Precedence(Classify(o).op) == 5
  {
    hide Classify, Precedence, Marked, LOGICAL, COMPARING, ADDING, MULTIPLYING;
    if o in LOGICAL { LogicalClass(o); }
    if o in COMPARING { ComparingClass(o); }
    if o in ADDING { AddingClass(o); }
    if o in MULTIPLYING { MultiplyingClass(o); }
  }

  lemma RunOne(s: State, t: Token, rest: seq<Token>)
    requires ArityInv(s)
    ensures Run(s, [t] + rest) == if Step(s, t).Ok? then Run(Step(s, t).value, rest) else Step(s, t)
  {
    assert ([t] + rest)[1..] == rest;
  }

  lemma TighterIff(o1: string, o2: string)
    requires IsBinary(o1) && IsBinary(o2)
    ensures Classify(o1).Operator? && Classify(o2).Operator?
    ensures Tighter(o2, o1) <==> Precedence(Classify(o1).op) < Precedence(Classify(o2).op)
  {
    hide Classify, Precedence, LOGICAL, COMPARING, ADDING, MULTIPLYING;
    ClassOf(o1);
    ClassOf(o2);
  }

  lemma StepOperand(s: State, a: string)
    requires ArityInv(s)
    ensures Step(s, Word(a)) == Ok(State(s.out + [Word(a)], s.stack, s.arity, false))
  {}

  lemma FirstOperator(out: seq<Token>, op: Op)
    ensures Step(State(out, Nil, Nil, false), Operator(op)) == Ok(State(out, Cons(Operator(op), Nil), Nil, true))
  {
    hide Precedence;
  }

  lemma SecondOperator(out: seq<Token>, first: Op, op: Op)
    ensures var (p, q) := (Operator(first), Operator(op));
            Step(State(out, Cons(p, Nil), Nil, false), q) ==
            Ok(if Precedence(first) < Precedence(op) then State(out, Cons(q, Cons(p, Nil)), Nil, true)
               else State(out + [p], Cons(q, Nil), Nil, true))
  {
    hide Precedence;
  }

  lemma FirstThree(a: string, op: Op, b: string, rest: seq<Token>)
    ensures Run(START, [Word(a)] + ([Operator(op)] + ([Word(b)] + rest))) ==
            Run(State([Word(a), Word(b)], Cons(Operator(op), Nil), Nil, false), rest)
  {
    hide Run, Step;
    var (x, p, y) := (Word(a), Operator(op), Word(b));
    StepOperand(START, a);
    FirstOperator([x], op);
    StepOperand(State([x], Cons(p, Nil), Nil, true), b);
    assert [] + [x] == [x] && [x] + [y] == [x, y];
    RunOne(START, x, [p] + ([y] + rest));
    RunOne(State([x], Nil, Nil, false), p, [y] + rest);
    RunOne(State([x], Cons(p, Nil), Nil, true), y, rest);
  }

  /** The notation of three operands with two binary operators between them: the first
      operator is applied first unless the second one binds tighter. */
  lemma TwoOperators(a: string, o1: string, b: string, o2: string, c: string)
    requires IsOperand(a) && IsOperand(b) && IsOperand(c) && IsBinary(o1) && IsBinary(o2)
    ensures var (x, y, z, p, q) := (Word(a), Word(b), Word(c), Classify(o1), Classify(o2));
            Postfix([x, p, y, q, z]) == Ok(if Tighter(o2, o1) then [x, y, z, q, p] else [x, y, p, z, q])
  {
    hide Classify, Run, Step, Precedence, IsOperand, IsBinary, Tighter;
    TighterIff(o1, o2);
    var (x, y, z, p, q) := (Word(a), Word(b), Word(c), Classify(o1), Classify(o2));
    assert [x, p, y, q, z] == [x] + ([p] + ([y] + ([q] + ([z] + []))));
    FirstThree(a, p.op, b, [q] + ([z] + []));
    RunOne(State([x, y], Cons(p, Nil), Nil, false), q, [z] + []);
    SecondOperator([x, y], p.op, q.op);
    if Tighter(o2, o1) {
      LastOperand([x, y], Cons(q, Cons(p, Nil)), c);
      assert [x, y] + [z] == [x, y, z] && [x, y, z] + [q] + [p] == [x, y, z, q, p];
    } else {
      LastOperand([x, y] + [p], Cons(q, Nil), c);
      assert [x, y] + [p] + [z] + [q] == [x, y, p, z, q];
    }
  }

  lemma LastOperand(out: seq<Token>, stack: Stack<Token>, c: string)
    requires Functions(stack) == 0
    ensures Run(State(out, stack, Nil, true), [Word(c)] + []) == Ok(State(out + [Word(c)], stack, Nil, false))
  {
    var s := State(out, stack, Nil, true);
    StepOperand(s, c);
    RunOne(s, Word(c), []);
    RunNothing(Step(s, Word(c)).value);
  }

  lemma RunNothing(s: State)
    requires ArityInv(s)
    ensures Run(s, []) == Ok(s)
  {}

  lemma TightestPrefixes()
    ensures Precedence(NegU) == Precedence(Bang) == 6
  {}

  lemma PrefixOf(pre: string)
    requires pre in {"-", "NOT", "!"}
    ensures Classify(pre).Operator? && Prefix(Classify(pre).op, true)
    ensures Marked(Classify(pre).op, true) == if pre == "-" then NegU else Bang
  {
    hide Classify;
    if pre == "-" {
      ClassifySpellOp(Minus);
    } else if pre == "NOT" {
      ClassifySpellOp(NotWord);
    } else {
      ClassifySpellOp(Bang);
    }
  }

  /** A prefix binds tighter than any binary operator, on either side of it. */
  lemma PrefixThenOperator(pre: string, a: string, o: string, b: string)
    requires pre in {"-", "NOT", "!"} && IsOperand(a) && IsOperand(b) && IsBinary(o)
    ensures var (u, x, y, q) := (Classify(pre), Word(a), Word(b), Classify(o));
            Postfix([u, x, q, y]) == Ok([x, Operator(if pre == "-" then NegU else Bang), y, q])
  {
    hide Classify, Run, Step, Precedence, Marked, IsOperand, LOGICAL, COMPARING, ADDING, MULTIPLYING;
    ClassOf(o);
    TightestPrefixes();
    PrefixOf(pre);
    var (u, x, y, q) := (Classify(pre), Word(a), Word(b), Classify(o));
    var m := Operator(if pre == "-" then NegU else Bang);
    assert [u, x, q, y] == [u] + ([x] + ([q] + ([y] + [])));
    assert [] + [x] == [x] && [x] + [m] + [y] + [q] == [x, m, y, q];
    StepPrefix(START, u.op);
    RunOne(START, u, [x] + ([q] + ([y] + [])));
    StepOperand(State([], Cons(m, Nil), Nil, true), a);
    RunOne(State([], Cons(m, Nil), Nil, true), x, [q] + ([y] + []));
    SecondOperator([x], m.op, q.op);
    RunOne(State([x], Cons(m, Nil), Nil, false), q, [y] + []);
    LastOperand([x] + [m], Cons(q, Nil), b);
  }

  lemma StepPrefix(s: State, op: Op)
    requires ArityInv(s) && s.unary && Prefix(op, true)
    ensures Step(s, Operator(op)) == Ok(State(s.out, Cons(Operator(Marked(op, true)), s.stack), s.arity, true))
  {}

  lemma OperatorThenPrefix(a: string, o: string, pre: string, b: string)
    requires pre in {"-", "NOT", "!"} && IsOperand(a) && IsOperand(b) && IsBinary(o)
    ensures var (u, x, y, q) := (Classify(pre), Word(a), Word(b), Classify(o));
            Postfix([x, q, u, y]) == Ok([x, y, Operator(if pre == "-" then NegU else Bang), q])
  {
    hide Classify, Run, Step, Precedence, Marked, IsOperand, LOGICAL, COMPARING, ADDING, MULTIPLYING;
    ClassOf(o);
    PrefixOf(pre);
    var (u, x, y, q) := (Classify(pre), Word(a), Word(b), Classify(o));
    var m := Operator(if pre == "-" then NegU else Bang);
    assert [x, q, u, y] == [x] + ([q] + ([u] + ([y] + [])));
    assert [] + [x] == [x] && [x] + [y] + [m] + [q] == [x, y, m, q];
    StepOperand(START, a);
    RunOne(START, x, [q] + ([u] + ([y] + [])));
    FirstOperator([x], q.op);
    RunOne(State([x], Nil, Nil, false), q, [u] + ([y] + []));
    StepPrefix(State([x], Cons(q, Nil), Nil, true), u.op);
    RunOne(State([x], Cons(q, Nil), Nil, true), u, [y] + []);
    LastOperand([x], Cons(m, Cons(q, Nil)), b);
  }

  // ------------------------------------------------ a parser already used

  function After(o: seq<Token>, s: State): State { s.(out := o + s.out) }

  lemma PopOperatorsAfter(o: seq<Token>, out: seq<Token>, stack: Stack<Token>, p: nat)
    ensures PopOperators(o + out, stack, p) ==
            (o + PopOperators(out, stack, p).0, PopOperators(out, stack, p).1)
    decreases stack
  {
    if stack.Cons? {
      assert (o + out) + [stack.top] == o + (out + [stack.top]);
    }
  }

  lemma PopToOpenAfter(o: seq<Token>, out: seq<Token>, stack: Stack<Token>)
    ensures PopToOpen(o + out, stack) == (o + PopToOpen(out, stack).0, PopToOpen(out, stack).1)
    decreases stack
  {
    if stack.Cons? {
      assert (o + out) + [stack.top] == o + (out + [stack.top]);
    }
  }

  lemma DrainAfter(o: seq<Token>, out: seq<Token>, stack: Stack<Token>)
    ensures Drain(o + out, stack) ==
            if Drain(out, stack).Ok? then Ok(o + Drain(out, stack).value) else Drain(out, stack)
    decreases stack
  {
    if stack.Cons? {
      assert (o + out) + [stack.top] == o + (out + [stack.top]);
    }
  }

  lemma StepAfter(o: seq<Token>, s: State, t: Token)
    requires ArityInv(s)
    ensures Step(After(o, s), t) ==
            if Step(s, t).Ok? then Ok(After(o, Step(s, t).value)) else Step(s, t)
  {
    match t
    case Comma => PopToOpenAfter(o, s.out, s.stack);
    case Close =>
      PopToOpenAfter(o, s.out, s.stack);
      var (out, stack) := PopToOpen(s.out, s.stack);
      if stack.Cons? && stack.rest.Cons? && stack.rest.top.Function? {
        assert Functions(stack) == Functions(stack.rest.rest) + 1;
        var call := [stack.rest.top, Word(Decimal(s.arity.top))];
        assert (o + out) + call == o + (out + call);
      }
    case Word(_) => assert (o + s.out) + [t] == o + (s.out + [t]);
    case Operator(op) => PopOperatorsAfter(o, s.out, s.stack, Precedence(op));
    case _ =>
  }

  lemma {:induction false} RunAfter(o: seq<Token>, s: State, tokens: seq<Token>)
    requires ArityInv(s)
    ensures Run(After(o, s), tokens) ==
            if Run(s, tokens).Ok? then Ok(After(o, Run(s, tokens).value)) else Run(s, tokens)
    decreases |tokens|
  {
    if tokens != [] {
      StepAfter(o, s, tokens[0]);
      if Step(s, tokens[0]).Ok? {
        RunAfter(o, Step(s, tokens[0]).value, tokens[1..]);
      }
    }
  }

  /** A parser that already holds output o appends the notation of its tokens to it. */
  lemma PostfixAfter(o: seq<Token>, tokens: seq<Token>)
    ensures var r := Run(State(o, Nil, Nil, true), tokens);
            match Postfix(tokens)
            case Err(e) => r == Err(e) || (r.Ok? && Drain(r.value.out, r.value.stack) == Err(e))
            case Ok(p) => r.Ok? && Drain(r.value.out, r.value.stack) == Ok(o + p)
  {
    RunAfter(o, START, tokens);
    assert After(o, START) == State(o, Nil, Nil, true);
    var r := Run(START, tokens);
    if r.Ok? {
      DrainAfter(o, r.value.out, r.value.stack);
    }
  }

  // ----------------------------------------------------------- conservation

  function Mark(t: Token, unary: bool): Token {
    if t.Operator? then Operator(Marked(t.op, unary)) else t
  }

  /** What the parser takes each token for: its flag depends on the token before only. */
  function MarkAll(tokens: seq<Token>, unary: bool): (r: seq<Token>)
    ensures |r| == |tokens|
  {
    if tokens == [] then []
    else
      var t := tokens[0];
      [Mark(t, unary)] + MarkAll(tokens[1..], t.Operator? || t == Open)
  }

  function Elements(stack: Stack<Token>): multiset<Token> {
    if stack.Nil? then multiset{} else multiset{stack.top} + Elements(stack.rest)
  }

  /** How often k is held by an output and a stack together. */
  function Held(out: seq<Token>, stack: Stack<Token>, k: Token): nat {
    multiset(out)[k] + Elements(stack)[k]
  }

  lemma PopOperatorsConserves(out: seq<Token>, stack: Stack<Token>, p: nat, k: Token)
    ensures var r := PopOperators(out, stack, p); Held(r.0, r.1, k) == Held(out, stack, k)
    decreases stack
  {}

  lemma PopToOpenConserves(out: seq<Token>, stack: Stack<Token>, k: Token)
    ensures var r := PopToOpen(out, stack); Held(r.0, r.1, k) == Held(out, stack, k)
    decreases stack
  {}

  lemma DrainConserves(out: seq<Token>, stack: Stack<Token>, k: Token)
    ensures var r := Drain(out, stack); r.Ok? ==> multiset(r.value)[k] == Held(out, stack, k)
    decreases stack
  {}

  lemma CloseConserves(s: State, k: Token)
    requires ArityInv(s) && Step(s, Close).Ok?
    requires k.Operator? || k.Function?
    ensures var s' := Step(s, Close).value; Held(s'.out, s'.stack, k) == Held(s.out, s.stack, k)
  {
    hide PopToOpen, Decimal, Held;
    PopToOpenConserves(s.out, s.stack, k);
    var (out, stack) := PopToOpen(s.out, s.stack);
    HeldBelow(out, stack, k);
    if stack.rest.Cons? && stack.rest.top.Function? {
      assert Functions(stack) == Functions(stack.rest.rest) + 1;
      HeldCall(out, stack.rest, Word(Decimal(s.arity.top)), k);
    }
  }

  lemma HeldBelow(out: seq<Token>, stack: Stack<Token>, k: Token)
    requires stack.Cons? && k != stack.top
    ensures Held(out, stack, k) == Held(out, stack.rest, k)
  {}

  lemma HeldCall(out: seq<Token>, stack: Stack<Token>, arity: Token, k: Token)
    requires stack.Cons? && arity.Word? && !k.Word?
    ensures Held(out + [stack.top, arity], stack.rest, k) == Held(out, stack, k)
  {
    assert out + [stack.top, arity] == out + [stack.top] + [arity];
  }

  lemma OperatorConserves(s: State, op: Op, k: Token)
    requires ArityInv(s)
    ensures var s' := Step(s, Operator(op)).value;
            Held(s'.out, s'.stack, k) ==
            Held(s.out, s.stack, k) + if Operator(Marked(op, s.unary)) == k then 1 else 0
  {
    hide PopOperators, Marked, Precedence;
    PopOperatorsConserves(s.out, s.stack, Precedence(op), k);
  }

  lemma StepConserves(s: State, t: Token, k: Token)
    requires ArityInv(s) && Step(s, t).Ok?
    requires k.Operator? || k.Function?
    ensures var s' := Step(s, t).value;
            && Held(s'.out, s'.stack, k) == Held(s.out, s.stack, k) + (if Mark(t, s.unary) == k then 1 else 0)
            && s'.unary == (t.Operator? || t == Open)
  {
    hide PopToOpen, PopOperators, Decimal, Precedence;
    match t
    case Comma => PopToOpenConserves(s.out, s.stack, k);
    case Close => CloseConserves(s, k);
    case Operator(op) => OperatorConserves(s, op, k);
    case _ =>
  }

  lemma {:induction false} RunConserves(s: State, tokens: seq<Token>, k: Token)
    requires ArityInv(s) && Run(s, tokens).Ok?
    requires k.Operator? || k.Function?
    ensures var s' := Run(s, tokens).value;
            Held(s'.out, s'.stack, k) == Held(s.out, s.stack, k) + multiset(MarkAll(tokens, s.unary))[k]
    decreases |tokens|
  {
    hide Step, Held;
    if tokens != [] {
      var t, s1 := tokens[0], Step(s, tokens[0]).value;
      RunConserves(s1, tokens[1..], k);
      StepConserves(s, t, k);
      assert MarkAll(tokens, s.unary) == [Mark(t, s.unary)] + MarkAll(tokens[1..], s1.unary);
    }
  }

  /** Whatever the token list, no operator and no function is lost, duplicated or
      invented: the notation holds each as often as the list did, prefixes marked. */
  lemma PostfixConserves(tokens: seq<Token>, k: Token)
    requires Postfix(tokens).Ok?
    requires k.Operator? || k.Function?
    ensures multiset(Postfix(tokens).value)[k] == multiset(MarkAll(tokens, true))[k]
  {
    var s := Run(START, tokens).value;
    RunConserves(START, tokens, k);
    DrainConserves(s.out, s.stack, k);
  }

  // ------------------------------------------------------------- rejection

  /** Parentheses match, at nesting depth d, and no comma stands outside all of them. */
  predicate Balanced(tokens: seq<Token>, d: nat) {
    if tokens == [] then d == 0
    else
      match tokens[0]
      case Open => Balanced(tokens[1..], d + 1)
      case Close => d > 0 && Balanced(tokens[1..], d - 1)
      case Comma => d > 0 && Balanced(tokens[1..], d)
      case _ => Balanced(tokens[1..], d)
  }

  lemma DrainIffNoOpen(out: seq<Token>, stack: Stack<Token>)
    ensures Drain(out, stack).Ok? <==> Opens(stack) == 0
    ensures Drain(out, stack).Ok? || Drain(out, stack) == Err(MismatchedParentheses)
    decreases stack
  {}

  lemma StepOpens(s: State, t: Token)
    requires ArityInv(s)
    ensures match Step(s, t)
            case Ok(s') =>
              && Opens(s'.stack) == Opens(s.stack) + (if t == Open then 1 else 0) - (if t == Close then 1 else 0)
              && (t in {Close, Comma} ==> Opens(s.stack) > 0)
            case Err(MismatchedParentheses) => t in {Close, Comma} && Opens(s.stack) == 0
            case Err(CommaOutsideCall) => t == Comma && Opens(s.stack) > 0
  {
    var stack := PopToOpen(s.out, s.stack).1;
    if stack.Cons? && stack.rest.Cons? && stack.rest.top.Function? {
      assert Functions(stack) == Functions(stack.rest.rest) + 1;
      assert Opens(stack.rest) == Opens(stack.rest.rest);
    }
  }

  lemma {:induction false} RunBalanced(s: State, tokens: seq<Token>)
    requires ArityInv(s)
    ensures match Run(s, tokens)
            case Ok(s') => Balanced(tokens, Opens(s.stack)) <==> Opens(s'.stack) == 0
            case Err(MismatchedParentheses) => !Balanced(tokens, Opens(s.stack))
            case Err(CommaOutsideCall) => Comma in tokens
    decreases |tokens|
  {
    hide Step, Opens;
    if tokens != [] {
      StepOpens(s, tokens[0]);
      if Step(s, tokens[0]).Ok? {
        RunBalanced(Step(s, tokens[0]).value, tokens[1..]);
      }
    }
  }

  /** What one scan needs to know to tell whether a list is accepted: for every open
      parenthesis how many functions were waiting in front of it, how many wait now, and
      how many calls were begun and not ended. A function waits until a parenthesis after it
      closes, and is forgotten at the next operator, comma or parenthesis. */
  predicate Acceptable(tokens: seq<Token>, open: Stack<nat>, waiting: nat, calls: nat)
    decreases |tokens|
  {
    if tokens == [] then open.Nil?
    else
      match tokens[0]
      case Function(_) => Acceptable(tokens[1..], open, waiting + 1, calls + 1)
      case Word(_) => Acceptable(tokens[1..], open, waiting, calls)
      case Operator(_) => Acceptable(tokens[1..], open, 0, calls)
      case Open => Acceptable(tokens[1..], Cons(waiting, open), 0, calls)
      case Comma => open.Cons? && calls > 0 && Acceptable(tokens[1..], open, 0, calls)
      case Close =>
        open.Cons? && if open.top > 0 then Acceptable(tokens[1..], open.rest, open.top - 1, if calls > 0 then calls - 1 else 0)
                      else Acceptable(tokens[1..], open.rest, 0, calls)
  }

  /** The functions on top of the stack, and those in front of each open parenthesis. */
  function WaitingOn(stack: Stack<Token>): nat {
    if stack.Cons? && stack.top.Function? then 1 + WaitingOn(stack.rest) else 0
  }

  function OpenOn(stack: Stack<Token>): Stack<nat> {
    match stack
    case Nil => Nil
    case Cons(t, rest) => if t == Open then Cons(WaitingOn(rest), OpenOn(rest)) else OpenOn(rest)
  }

  lemma PopToOpenKeepsOpen(out: seq<Token>, stack: Stack<Token>)
    ensures OpenOn(PopToOpen(out, stack).1) == OpenOn(stack)
    ensures PopToOpen(out, stack).1.Cons? <==> OpenOn(stack).Cons?
    decreases stack
  {}

  lemma PopOperatorsKeepsOpen(out: seq<Token>, stack: Stack<Token>, p: nat)
    ensures OpenOn(PopOperators(out, stack, p).1) == OpenOn(stack)
    decreases stack
  {}

  lemma WaitingHaveCounters(stack: Stack<Token>)
    ensures WaitingOn(stack) <= Functions(stack)
    ensures OpenOn(stack).Nil? <==> Opens(stack) == 0
    decreases stack
  {}

  /** A step, as the scan sees it. */
  lemma StepScanned(s: State, t: Token)
    requires ArityInv(s)
    ensures var open, waiting, calls := OpenOn(s.stack), WaitingOn(s.stack), Depth(s.arity);
            match Step(s, t)
            case Err(_) => (t == Close && open.Nil?) || (t == Comma && (open.Nil? || calls == 0))
            case Ok(s') =>
              var open', waiting', calls' := OpenOn(s'.stack), WaitingOn(s'.stack), Depth(s'.arity);
              match t
              case Function(_) => open' == open && waiting' == waiting + 1 && calls' == calls + 1
              case Word(_) => open' == open && waiting' == waiting && calls' == calls
              case Operator(_) => open' == open && waiting' == 0 && calls' == calls
              case Open => open' == Cons(waiting, open) && waiting' == 0 && calls' == calls
              case Comma => open.Cons? && calls > 0 && open' == open && waiting' == 0 && calls' == calls
              case Close =>
                open.Cons? && open' == open.rest &&
                if open.top > 0 then calls > 0 && waiting' == open.top - 1 && calls' == calls - 1
                else waiting' == 0 && calls' == calls
  {
    hide Precedence, Decimal;
    PopToOpenKeepsOpen(s.out, s.stack);
    match t
    case Operator(op) => PopOperatorsKeepsOpen(s.out, s.stack, Precedence(op));
    case Close =>
      var stack := PopToOpen(s.out, s.stack).1;
      if stack.Cons? { WaitingHaveCounters(stack.rest); }
    case _ =>
  }

  lemma {:induction false} RunScanned(s: State, tokens: seq<Token>)
    requires ArityInv(s)
    ensures Acceptable(tokens, OpenOn(s.stack), WaitingOn(s.stack), Depth(s.arity)) <==>
            Run(s, tokens).Ok? && OpenOn(Run(s, tokens).value.stack).Nil?
    decreases |tokens|
  {
    hide Step, OpenOn, WaitingOn, Depth, ArityInv;
    if tokens != [] {
      StepScanned(s, tokens[0]);
      if Step(s, tokens[0]).Ok? { RunScanned(Step(s, tokens[0]).value, tokens[1..]); }
    }
  }

  /** get_postfix accepts a list if and only if its parentheses match and every comma stands
      in a parenthesis while some call is open. It rejects no list with matching
      parentheses except for a comma outside a call, and accepts no other; a list without
      commas is accepted exactly when its parentheses match. */
  lemma AcceptedIffBalanced(tokens: seq<Token>)
    ensures Postfix(tokens).Ok? <==> Acceptable(tokens, Nil, 0, 0)
    ensures Postfix(tokens).Ok? ==> Balanced(tokens, 0)
    ensures Balanced(tokens, 0) ==> Postfix(tokens).Ok? || Postfix(tokens) == Err(CommaOutsideCall)
    ensures Comma !in tokens ==> (Postfix(tokens).Ok? <==> Balanced(tokens, 0))
  {
    hide Acceptable;
    RunBalanced(START, tokens);
    RunScanned(START, tokens);
    var r := Run(START, tokens);
    if r.Ok? {
      DrainIffNoOpen(r.value.out, r.value.stack);
      WaitingHaveCounters(r.value.stack);
    }
  }

  /** The comma may stand in a parenthesis of its own, as long as a call is open around it. */
  lemma CommaInInnerParenthesis()
    ensures Postfix([Function(MaxFn), Open, Open, Comma, Close, Close]).Ok?
    ensures !Postfix([Open, Comma, Close]).Ok?
  {
    hide Postfix;
    var tokens := [Function(MaxFn), Open, Open, Comma, Close, Close];
    AcceptedIffBalanced(tokens);
    assert tokens[1..] == [Open, Open, Comma, Close, Close];
    assert [Open, Open, Comma, Close, Close][1..] == [Open, Comma, Close, Close];
    assert [Open, Comma, Close, Close][1..] == [Comma, Close, Close];
    assert [Comma, Close, Close][1..] == [Close, Close];
    assert [Close, Close][1..] == [Close] && [Close][1..] == [];
    assert Acceptable([Close, Close], Cons(0, Cons(1, Nil)), 0, 1);
    assert Acceptable([Open, Comma, Close, Close], Cons(1, Nil), 0, 1);
    AcceptedIffBalanced([Open, Comma, Close]);
    assert [Open, Comma, Close][1..] == [Comma, Close];
    assert !Acceptable([Comma, Close], Cons(0, Nil), 0, 0);
  }

  // ----------------------------------------------------------------- object

  /** The parser object: `get_postfix` appends to `_postfix`, so only the first
      call on an object returns the postfix of its expression alone. */
  class Parser {
    const tokens: seq<Token>
    var postfix: seq<Token>

    constructor (tokens: seq<Token>)
      ensures this.tokens == tokens && postfix == []
    {
      this.tokens := tokens;
      postfix := [];
    }

    method PopUntilOpen(stack0: Stack<Token>) returns (stack: Stack<Token>)
      modifies this
      ensures (postfix, stack) == PopToOpen(old(postfix), stack0)
    {
      stack := stack0;
      while stack.Cons? && stack.top != Open
        invariant PopToOpen(postfix, stack) == PopToOpen(old(postfix), stack0)
        decreases stack
      {
        postfix := postfix + [stack.top];
        stack := stack.rest;
      }
    }

    method PopWhileBinding(stack0: Stack<Token>, p: nat) returns (stack: Stack<Token>)
      modifies this
      ensures (postfix, stack) == PopOperators(old(postfix), stack0, p)
    {
      stack := stack0;
      while stack.Cons? && stack.top.Operator? && p <= Precedence(stack.top.op)
        invariant PopOperators(postfix, stack, p) == PopOperators(old(postfix), stack0, p)
        decreases stack
      {
        postfix := postfix + [stack.top];
        stack := stack.rest;
      }
    }

    /** The body of the loop: reads one token. */
    method Read(token: Token, s: State) returns (r: Result<State>)
      requires s.out == postfix && ArityInv(s)
      modifies this
      ensures r == Step(s, token)
      ensures r.Ok? ==> postfix == r.value.out
    {
      var stack, arity, unary := s.stack, s.arity, s.unary;
      match token {
        case Function(_) =>
          stack := Cons(token, stack);
          arity := Cons(1, arity);
          unary := false;
        case Comma =>
          stack := PopUntilOpen(stack);
          if stack.Nil? { return Err(MismatchedParentheses); }
          if arity.Nil? { return Err(CommaOutsideCall); }
          arity := Cons(arity.top + 1, arity.rest);
          unary := false;
        case Operator(op) =>
          if unary && op == Minus {
            stack := Cons(Operator(NegU), stack);
          } else if unary && (op == NotWord || op == Bang) {
            stack := Cons(Operator(Bang), stack);
          } else {
            stack := PopWhileBinding(stack, Precedence(op));
            stack := Cons(token, stack);
          }
          unary := true;
        case Open =>
          stack := Cons(token, stack);
          unary := true;
        case Close =>
          stack := PopUntilOpen(stack);
          if stack.Nil? { return Err(MismatchedParentheses); }
          assert stack.rest.Cons? && stack.rest.top.Function? ==>
              Functions(stack) == Functions(stack.rest.rest) + 1;
          stack := stack.rest;
          if stack.Cons? && stack.top.Function? {
            postfix := postfix + [stack.top, Word(Decimal(arity.top))];
            stack := stack.rest;
            arity := arity.rest;
          }
          unary := false;
        case Word(_) =>
          postfix := postfix + [token];
          unary := false;
      }
      return Ok(State(postfix, stack, arity, unary));
    }

    method GetPostfix() returns (outcome: Result<()>)
      modifies this
      ensures match Postfix(tokens)
              case Ok(p) => outcome.Ok? && postfix == old(postfix) + p
              case Err(e) => outcome == Err(e)
    {
      ghost var start := State(postfix, Nil, Nil, true);
      PostfixAfter(postfix, tokens);
      var s := State(postfix, Nil, Nil, true);
      var i := 0;
      while i < |tokens|
        invariant 0 <= i <= |tokens|
        invariant ArityInv(s) && s.out == postfix
        invariant Run(start, tokens) == Run(s, tokens[i..])
      {
        assert tokens[i..][0] == tokens[i] && tokens[i..][1..] == tokens[i + 1..];
        var r := Read(tokens[i], s);
        if r.Err? { return Err(r.error); }
        s := r.value;
        i := i + 1;
      }
      var stack := s.stack;
      while stack.Cons?
        invariant Drain(postfix, stack) == Drain(s.out, s.stack)
        decreases stack
      {
        var token := stack.top;
        stack := stack.rest;
        if token == Open { return Err(MismatchedParentheses); }
        postfix := postfix + [token];
      }
      return Ok(());
    }
  }
}

/** bam/src/exp_builder.cc: builds the tree of computation nodes of an expression
    from its postfix notation. */
module ExpBuilder {
  import opened Options
  import opened ExpTokens
  import opened ExpPrinter
  import ExpParser
  import C = Computable

  /** The tree of an expression, as a value. */
  datatype Tree =
    | Constant(number: C.Num)
    | Service(host: nat, service: nat)
    | Negation(arg: Tree)
    | Binary(op: C.BinKind, left: Tree, right: Tree)

  /** An entry of the operand stack: a string not evaluated yet, or a tree. */
  datatype Operand = Text(text: string) | Node(tree: Tree)

  datatype Error =
    | MissingOperand
    | NotAString
    | WrongArity
    | MissingArity
    | UnknownService
    | Leftover        // more than the tree root remains on the stack

  datatype Result<T> = Ok(value: T) | Err(error: Error)

  /** What the builder is given: hst_svc_mapping::get_service_id, and strtod. */
  datatype Names = Names(services: map<(string, string), (nat, nat)>, strtod: string -> real)

  type Operands = ExpParser.Stack<Operand>

  predicate Found(names: Names, host: string, service: string) {
    && (host, service) in names.services
    && names.services[(host, service)].0 != 0
    && names.services[(host, service)].1 != 0
  }

  function KindOf(op: BinOp): C.BinKind {
    match op
    case AmpAmp | AndWord => C.AndNode
    case PipePipe | OrWord => C.OrNode
    case Caret | XorWord => C.XorNode
    case EqEq | Is => C.EqualNode
    case NotEq | NotWord => C.NotEqualNode
    case Gt => C.MoreThan(true)
    case Ge => C.MoreThan(false)
    case Lt => C.LessThan(true)
    case Le => C.LessThan(false)
    case Plus => C.Operation(C.Addition)
    case Minus => C.Operation(C.Subtraction)
    case Star => C.Operation(C.Multiplication)
    case Slash => C.Operation(C.Division)
    case Percent => C.Operation(C.Modulo)
  }

  /** The value of an operand string. */
  function Number(names: Names, w: string): C.Num {
    if w == "OK" then C.Real(0.0)
    else if w == "WARNING" then C.Real(1.0)
    else if w == "CRITICAL" then C.Real(2.0)
    else if w == "UNKNOWN" then C.Real(3.0)
    else if w == "UP" then C.Real(0.0)
    else if w == "DOWN" then C.Real(1.0)
    else if w == "UNREACHABLE" then C.Real(2.0)
    else C.Real(names.strtod(w))
  }

  function ToTree(names: Names, o: Operand): Tree {
    match o
    case Text(w) => Constant(Number(names, w))
    case Node(t) => t
  }

  /** std::strtol on the arities the parser writes; any other word reads as zero. */
  function ReadArity(t: Token): int {
    var s := Spell(t);
    if forall i :: 0 <= i < |s| ==> '0' <= s[i] <= '9' then ExpParser.ReadDecimal(s) else 0
  }

  /** _pop_string, n times; the strings popped come last first. */
  function PopStrings(stack: Operands, n: nat): (r: Result<(seq<string>, Operands)>)
    ensures r.Ok? ==> |r.value.0| == n
  {
    if n == 0 then Ok(([], stack))
    else if stack.Nil? then Err(MissingOperand)
    else if !stack.top.Text? || stack.top.text == "" then Err(NotAString)
    else
      match PopStrings(stack.rest, n - 1)
      case Err(e) => Err(e)
      case Ok((strings, rest)) => Ok(([stack.top.text] + strings, rest))
  }

  predicate IsStatic(fn: Fn) { fn in {HostStatus, ServiceStatus, Metrics, Metric, CallFn} }

  function StaticArity(fn: Fn): nat
    requires IsStatic(fn)
  {
    match fn case ServiceStatus => 2 case Metric => 3 case _ => 1
  }

  /** A function call, its arity read: only SERVICESTATUS leaves an operand, and only the
      functions that read statuses or metrics take their arguments off the stack. */
  function Call(names: Names, fn: Fn, arity: int, stack: Operands): Result<Operands> {
    if !IsStatic(fn) then Ok(stack)
    else if arity != StaticArity(fn) then Err(WrongArity)
    else
      match PopStrings(stack, StaticArity(fn))
      case Err(e) => Err(e)
      case Ok((strings, rest)) =>
        if fn != ServiceStatus then Ok(rest)
        else if !Found(names, strings[1], strings[0]) then Err(UnknownService)
        else
          var ids := names.services[(strings[1], strings[0])];
          Ok(ExpParser.Cons(Node(Service(ids.0, ids.1)), rest))
  }

  /** How many strings each function takes off the stack when it has that many arguments; with
      another number of arguments it is refused. Only SERVICESTATUS leaves something, and the
      functions not named here leave their arguments as they are. */
  lemma CallTakes(names: Names, fn: Fn, arity: int, stack: Operands)
    ensures var takes := if SpellFn(fn) in {"HOSTSTATUS", "METRICS", "CALL"} then 1
                         else if SpellFn(fn) == "SERVICESTATUS" then 2 else if SpellFn(fn) == "METRIC" then 3 else 0;
            var r := Call(names, fn, arity, stack);
            && (r == Err(WrongArity) <==> takes != 0 && arity != takes)
            && (r.Ok? && takes == 0 ==> r.value == stack)
            && (r.Ok? && takes > 0 ==>
                  && PopStrings(stack, takes).Ok?
                  && var rest := PopStrings(stack, takes).value.1;
                     if takes == 2 then r.value.Cons? && r.value.rest == rest && r.value.top.Node? else r.value == rest)
  {
    CallSpellings(fn);
    PopNeverArity(stack, StaticArityOr0(fn));
  }

  function StaticArityOr0(fn: Fn): nat { if IsStatic(fn) then StaticArity(fn) else 0 }

  lemma CallSpellings(fn: Fn)
    ensures SpellFn(fn) in {"HOSTSTATUS", "METRICS", "CALL"} <==> fn in {HostStatus, Metrics, CallFn}
    ensures SpellFn(fn) == "SERVICESTATUS" <==> fn == ServiceStatus
    ensures SpellFn(fn) == "METRIC" <==> fn == Metric
  {
    forall other: Fn ensures SpellFn(fn) == SpellFn(other) ==> fn == other {
      ClassifySpellFn(fn);
      ClassifySpellFn(other);
    }
    assert SpellFn(HostStatus) == "HOSTSTATUS" && SpellFn(Metrics) == "METRICS" && SpellFn(CallFn) == "CALL";
    assert SpellFn(ServiceStatus) == "SERVICESTATUS" && SpellFn(Metric) == "METRIC";
  }

  lemma {:induction false} PopNeverArity(stack: Operands, n: nat)
    ensures PopStrings(stack, n) != Err(WrongArity)
  {
    if n > 0 && stack.Cons? { PopNeverArity(stack.rest, n - 1); }
  }

  /** An operator: the unary minus does nothing. */
  function Apply(names: Names, op: Op, stack: Operands): Result<Operands> {
    if op == NegU then Ok(stack)
    else if stack.Nil? then Err(MissingOperand)
    else if op == Bang then
      Ok(ExpParser.Cons(Node(Negation(ToTree(names, stack.top))), stack.rest))
    else if stack.rest.Nil? then Err(MissingOperand)
    else
      var tree := Binary(KindOf(op), ToTree(names, stack.rest.top), ToTree(names, stack.top));
      Ok(ExpParser.Cons(Node(tree), stack.rest.rest))
  }

  /** The loop over the postfix notation. */
  function Execute(names: Names, postfix: seq<Token>, stack: Operands): Result<Operands>
    decreases |postfix|
  {
    if postfix == [] then Ok(stack)
    else
      match postfix[0]
      case Operator(op) =>
        var r := Apply(names, op, stack);
        if r.Err? then r else Execute(names, postfix[1..], r.value)
      case Function(fn) =>
        if |postfix| == 1 then Err(MissingArity)
        else
          var r := Call(names, fn, ReadArity(postfix[1]), stack);
          if r.Err? then r else Execute(names, postfix[2..], r.value)
      case t => Execute(names, postfix[1..], ExpParser.Cons(Text(Spell(t)), stack))
  }

  function Finish(names: Names, stack: Operands): Result<Tree> {
    if stack.Nil? then Err(MissingOperand)
    else if stack.rest.Cons? then Err(Leftover)
    else Ok(ToTree(names, stack.top))
  }

  /** The tree the builder makes, or why it throws. */
  function Build(names: Names, postfix: seq<Token>): Result<Tree> {
    match Execute(names, postfix, ExpParser.Nil)
    case Err(e) => Err(e)
    case Ok(stack) => Finish(names, stack)
  }

  // -------------------------------------------- what expressions are built to

  /** What e leaves on the operand stack, for the expressions whose every part leaves
      exactly one operand: a classical function of one argument and a unary minus leave
      their argument, and SERVICESTATUS takes two strings. */
  function Meaning(names: Names, e: Expr): Option<Operand> {
    match e
    case Leaf(w) => if w == "" then None else Some(Text(w))
    case Neg(arg) => Meaning(names, arg)
    case Not(_, arg) =>
      var a := Meaning(names, arg);
      if a.None? then None else Some(Node(Negation(ToTree(names, a.value))))
    case Bin(op, left, right) =>
      var l, r := Meaning(names, left), Meaning(names, right);
      if l.None? || r.None? then None
      else Some(Node(Binary(KindOf(op), ToTree(names, l.value), ToTree(names, r.value))))
    case Call(fn, args) =>
      if args.NoArgs? then None
      else if args.tail.NoArgs? then
        if IsStatic(fn) then None else Meaning(names, args.head)
      else if fn == ServiceStatus && args.tail.tail.NoArgs? then
        var h, s := Meaning(names, args.head), Meaning(names, args.tail.head);
        if h.None? || s.None? || !h.value.Text? || !s.value.Text? then None
        else if !Found(names, h.value.text, s.value.text) then None
        else
          var ids := names.services[(h.value.text, s.value.text)];
          Some(Node(Service(ids.0, ids.1)))
      else None
  }

  lemma {:induction false} TextNotEmpty(names: Names, e: Expr)
    requires Meaning(names, e).Some? && Meaning(names, e).value.Text?
    ensures Meaning(names, e).value.text != ""
  {
    match e
    case Neg(arg) => TextNotEmpty(names, arg);
    case Call(fn, args) => if args.tail.NoArgs? { TextNotEmpty(names, args.head); }
    case _ =>
  }

  lemma ArityReadBack(n: nat)
    ensures ReadArity(Word(ExpParser.Decimal(n))) == n
  {
    ExpParser.ReadDecimalOfDecimal(n);
  }

  lemma ExecuteOperator(names: Names, op: Op, rest: seq<Token>, stack: Operands)
    ensures Execute(names, [Operator(op)] + rest, stack) ==
            var r := Apply(names, op, stack); if r.Err? then r else Execute(names, rest, r.value)
  {
    assert ([Operator(op)] + rest)[1..] == rest;
  }

  lemma ExecuteCall(names: Names, fn: Fn, n: nat, rest: seq<Token>, stack: Operands)
    ensures Execute(names, [Function(fn), Word(ExpParser.Decimal(n))] + rest, stack) ==
            var r := Call(names, fn, n, stack); if r.Err? then r else Execute(names, rest, r.value)
  {
    hide ReadArity, Call;
    var ts := [Function(fn), Word(ExpParser.Decimal(n))] + rest;
    ArityReadBack(n);
    assert ts[0] == Function(fn) && ts[1] == Word(ExpParser.Decimal(n)) && ts[2..] == rest;
  }

  /** The postorder of e puts on the operand stack what e means. */
  lemma {:induction false} ExecutePostorder(names: Names, e: Expr, rest: seq<Token>, stack: Operands)
    requires Meaning(names, e).Some?
    ensures Execute(names, Postorder(e) + rest, stack) ==
            Execute(names, rest, ExpParser.Cons(Meaning(names, e).value, stack))
    decreases e, 1
  {
    hide Execute, KindOf, Number, Call;
    match e
    case Leaf(w) => ExecuteWord(names, w, rest, stack);
    case Neg(arg) =>
      assert Postorder(e) + rest == Postorder(arg) + ([Operator(NegU)] + rest);
      ExecutePostorder(names, arg, [Operator(NegU)] + rest, stack);
      ExecuteOperator(names, NegU, rest, ExpParser.Cons(Meaning(names, arg).value, stack));
    case Not(_, arg) =>
      assert Postorder(e) + rest == Postorder(arg) + ([Operator(Bang)] + rest);
      ExecutePostorder(names, arg, [Operator(Bang)] + rest, stack);
      ExecuteOperator(names, Bang, rest, ExpParser.Cons(Meaning(names, arg).value, stack));
    case Bin(op, left, right) =>
      var stack1 := ExpParser.Cons(Meaning(names, left).value, stack);
      assert Postorder(e) + rest == Postorder(left) + (Postorder(right) + ([Operator(op)] + rest));
      ExecutePostorder(names, left, Postorder(right) + ([Operator(op)] + rest), stack);
      ExecutePostorder(names, right, [Operator(op)] + rest, stack1);
      ExecuteOperator(names, op, rest, ExpParser.Cons(Meaning(names, right).value, stack1));
    case Call(fn, args) => ExecuteCallPostorder(names, fn, args, rest, stack);
  }

  lemma {:induction false} ExecuteCallPostorder(names: Names, fn: Fn, args: Args, rest: seq<Token>, stack: Operands)
    requires Meaning(names, ExpPrinter.Call(fn, args)).Some?
    ensures var e := ExpPrinter.Call(fn, args);
            Execute(names, Postorder(e) + rest, stack) ==
            Execute(names, rest, ExpParser.Cons(Meaning(names, e).value, stack))
    decreases ExpPrinter.Call(fn, args), 0
  {
    hide Execute, Call;
    var e := ExpPrinter.Call(fn, args);
    var call := [Function(fn), Word(ExpParser.Decimal(Count(args)))];
    assert Postorder(e) == PostorderArgs(args) + call;
    if args.tail.NoArgs? {
      assert PostorderArgs(args.tail) == [] && Count(args) == 1;
      assert Postorder(e) + rest == Postorder(args.head) + (call + rest);
      ExecutePostorder(names, args.head, call + rest, stack);
      ExecuteClassical(names, fn, rest, ExpParser.Cons(Meaning(names, args.head).value, stack));
    } else {
      var h, s := args.head, args.tail.head;
      assert args == Arg(h, Arg(s, NoArgs));
      assert PostorderArgs(NoArgs) == [] && PostorderArgs(args.tail) == Postorder(s);
      assert Count(args.tail.tail) == 0 && Count(args.tail) == 1 && Count(args) == 2;
      assert Postorder(e) + rest == Postorder(h) + (Postorder(s) + (call + rest));
      ExecutePostorder(names, h, Postorder(s) + (call + rest), stack);
      ExecutePostorder(names, s, call + rest, ExpParser.Cons(Meaning(names, h).value, stack));
      ExecuteStatus(names, h, s, rest, stack);
    }
  }

  lemma ExecuteWord(names: Names, w: string, rest: seq<Token>, stack: Operands)
    ensures Execute(names, [Word(w)] + rest, stack) == Execute(names, rest, ExpParser.Cons(Text(w), stack))
  {
    assert ([Word(w)] + rest)[1..] == rest;
  }

  lemma ExecuteClassical(names: Names, fn: Fn, rest: seq<Token>, stack: Operands)
    requires !IsStatic(fn)
    ensures Execute(names, [Function(fn), Word(ExpParser.Decimal(1))] + rest, stack) == Execute(names, rest, stack)
  {
    hide Execute;
    ExecuteCall(names, fn, 1, rest, stack);
  }

  lemma ExecuteStatus(names: Names, h: Expr, s: Expr, rest: seq<Token>, stack: Operands)
    requires var e := ExpPrinter.Call(ServiceStatus, Arg(h, Arg(s, NoArgs))); Meaning(names, e).Some?
    ensures var e := ExpPrinter.Call(ServiceStatus, Arg(h, Arg(s, NoArgs)));
            Execute(names, [Function(ServiceStatus), Word(ExpParser.Decimal(2))] + rest,
                    ExpParser.Cons(Meaning(names, s).value, ExpParser.Cons(Meaning(names, h).value, stack))) ==
            Execute(names, rest, ExpParser.Cons(Meaning(names, e).value, stack))
  {
    hide Execute;
    var hv, sv := Meaning(names, h).value, Meaning(names, s).value;
    var full := ExpParser.Cons(sv, ExpParser.Cons(hv, stack));
    TextNotEmpty(names, h);
    TextNotEmpty(names, s);
    ExecuteCall(names, ServiceStatus, 2, rest, full);
    assert PopStrings(stack, 0) == Ok(([], stack));
    assert [hv.text] + [] == [hv.text];
    assert PopStrings(ExpParser.Cons(hv, stack), 1) == Ok(([hv.text], stack));
    assert PopStrings(full, 2) == Ok(([sv.text] + [hv.text], stack));
  }

  /** Building the postfix of a printed expression gives the tree of that expression. */
  lemma BuiltAsMeant(names: Names, e: Expr)
    requires Plain(e) && Meaning(names, e).Some?
    ensures ExpParser.Postfix(Print(e)) == ExpParser.Ok(Postorder(e))
    ensures Build(names, Postorder(e)) == Ok(ToTree(names, Meaning(names, e).value))
  {
    hide Execute;
    ParsedIffPlain(e);
    ExecutePostorder(names, e, [], ExpParser.Nil);
    assert Postorder(e) + [] == Postorder(e);
    var stack := ExpParser.Cons(Meaning(names, e).value, ExpParser.Nil);
    ExecuteNothing(names, stack);
  }

  lemma ExecuteNothing(names: Names, stack: Operands)
    ensures Execute(names, [], stack) == Ok(stack)
  {}
}

/** What the boolean expressions mean: the value that the text of an expression is served
    with, from the text to the statuses received, word by word of the language. */
module ExpServed {
  import opened Options
  import opened ExpTokens
  import opened ExpPrinter
  import opened ExpBuilder
  import opened ExpGraph
  import C = Computable
  import ExpParser
  import ExpText
  import ExpTokenizer

  /** An expression that the parser reads right and that has a meaning. */
  predicate Supported(names: Names, e: Expr) {
    ExpText.HasOperands(e) && Plain(e) && Meaning(names, e).Some?
  }

  /** The value that the text of e is served with. */
  function Value(names: Names, e: Expr, history: seq<Status>): C.Num
    requires Supported(names, e)
  {
    ServedAsMeant(names, e, history);
    Served(names, TextOf(e), history).value
  }

  predicate Holds(v: C.Num) { v == C.Real(1.0) }

  predicate IsTruth(v: C.Num) { v in {C.Real(0.0), C.Real(1.0)} }

  // -------------------------------------------------------------- operators

  lemma BinaryServed(names: Names, op: BinOp, l: Expr, r: Expr, history: seq<Status>)
    requires Supported(names, l) && Supported(names, r)
    ensures Supported(names, Bin(op, l, r))
    ensures Value(names, Bin(op, l, r), history) ==
            C.Combine(KindOf(op), Value(names, l, history), Value(names, r, history))
  {
    hide Served, KindOf, C.Combine, Classify;
    ServedAsMeant(names, l, history);
    ServedAsMeant(names, r, history);
    ServedAsMeant(names, Bin(op, l, r), history);
  }

  /** The operator that a word spells. */
  lemma Spelled(op: Op, other: Op)
    ensures SpellOp(op) == SpellOp(other) ==> op == other
  {
    hide Classify, SpellOp;
    ClassifySpellOp(op);
    ClassifySpellOp(other);
  }

  /** The logical operators: everything but zero is true. */
  lemma LogicServed(names: Names, op: BinOp, l: Expr, r: Expr, history: seq<Status>)
    requires Supported(names, l) && Supported(names, r)
    requires SpellOp(op) in {"&&", "AND", "||", "OR", "^", "XOR"}
    ensures Supported(names, Bin(op, l, r))
    ensures var (v, x, y) := (Value(names, Bin(op, l, r), history), Value(names, l, history), Value(names, r, history));
            && IsTruth(v)
            && (SpellOp(op) in {"&&", "AND"} ==> (Holds(v) <==> x != C.Real(0.0) && y != C.Real(0.0)))
            && (SpellOp(op) in {"||", "OR"} ==> (Holds(v) <==> x != C.Real(0.0) || y != C.Real(0.0)))
            && (SpellOp(op) in {"^", "XOR"} ==> (Holds(v) <==> (x == C.Real(0.0)) != (y == C.Real(0.0))))
  {
    hide Served, Value, Supported;
    BinaryServed(names, op, l, r, history);
    forall other: Op ensures SpellOp(op) == SpellOp(other) ==> op == other { Spelled(op, other); }
    assert SpellOp(op) in {SpellOp(AmpAmp), SpellOp(AndWord), SpellOp(PipePipe), SpellOp(OrWord), SpellOp(Caret), SpellOp(XorWord)};
  }

  /** Equality, up to a small difference. */
  lemma EqualityServed(names: Names, op: BinOp, l: Expr, r: Expr, history: seq<Status>)
    requires Supported(names, l) && Supported(names, r)
    requires SpellOp(op) in {"==", "IS", "!=", "NOT"}
    ensures Supported(names, Bin(op, l, r))
    ensures var (v, x, y) := (Value(names, Bin(op, l, r), history), Value(names, l, history), Value(names, r, history));
            && IsTruth(v)
            && (x == C.NaN || y == C.NaN ==> !Holds(v))
            && (x.Real? && y.Real? ==>
                  (Holds(v) <==> (SpellOp(op) in {"==", "IS"} <==> -0.0001 < x.value - y.value < 0.0001)))
  {
    hide Served, Value, Supported;
    BinaryServed(names, op, l, r, history);
    forall other: Op ensures SpellOp(op) == SpellOp(other) ==> op == other { Spelled(op, other); }
    assert SpellOp(op) in {SpellOp(EqEq), SpellOp(Is), SpellOp(NotEq), SpellOp(NotWord)};
  }

  /** Order. */
  lemma OrderServed(names: Names, op: BinOp, l: Expr, r: Expr, history: seq<Status>)
    requires Supported(names, l) && Supported(names, r)
    requires SpellOp(op) in {"<", "<=", ">", ">="}
    ensures Supported(names, Bin(op, l, r))
    ensures var (v, x, y) := (Value(names, Bin(op, l, r), history), Value(names, l, history), Value(names, r, history));
            && IsTruth(v)
            && (x == C.NaN || y == C.NaN ==> !Holds(v))
            && (x.Real? && y.Real? ==>
                  && (Holds(v) && x.value < y.value ==> SpellOp(op) in {"<", "<="})
                  && (Holds(v) && x.value > y.value ==> SpellOp(op) in {">", ">="})
                  && (x.value == y.value ==> (Holds(v) <==> SpellOp(op) in {"<=", ">="}))
                  && (x.value != y.value && !Holds(v) ==> (x.value < y.value <==> SpellOp(op) in {">", ">="})))
  {
    hide Served, Value, Supported;
    BinaryServed(names, op, l, r, history);
    forall other: Op ensures SpellOp(op) == SpellOp(other) ==> op == other { Spelled(op, other); }
    assert SpellOp(op) in {SpellOp(Lt), SpellOp(Le), SpellOp(Gt), SpellOp(Ge)};
  }

  /** t is r cut off towards zero. */
  predicate CutOff(r: real, t: int) {
    if r < 0.0 then r <= t as real < r + 1.0 else r - 1.0 < t as real <= r
  }

  /** Exact arithmetic: `-` undoes `+`, and `*` undoes `/`, which has no value for a divisor
      next to zero; what is no number stays none. */
  predicate IsResult(o: string, x: C.Num, y: C.Num, v: C.Num) {
    && (x == C.NaN || y == C.NaN ==> v == C.NaN)
    && (x.Real? && y.Real? ==>
          && (v == C.NaN <==> o == "/" && -0.0001 < y.value < 0.0001)
          && (o == "+" ==> v.value == x.value + y.value)
          && (o == "-" ==> v.value + y.value == x.value)
          && (o == "*" ==> v.value == x.value * y.value)
          && (o == "/" && v.Real? ==> v.value * y.value == x.value))
  }

  lemma ArithmeticServed(names: Names, op: BinOp, l: Expr, r: Expr, history: seq<Status>)
    requires Supported(names, l) && Supported(names, r)
    requires SpellOp(op) in {"+", "-", "*", "/"}
    ensures Supported(names, Bin(op, l, r))
    ensures IsResult(SpellOp(op), Value(names, l, history), Value(names, r, history), Value(names, Bin(op, l, r), history))
  {
    hide Served, Value, Supported, KindOf, C.Combine, SpellOp, IsResult;
    BinaryServed(names, op, l, r, history);
    ArithmeticOp(op);
    IsComputed(op, Value(names, l, history), Value(names, r, history));
  }

  lemma IsComputed(op: BinOp, x: C.Num, y: C.Num)
    requires op in {Plus, Minus, Star, Slash}
    ensures IsResult(SpellOp(op), x, y, C.Combine(KindOf(op), x, y))
  {
    if x.Real? && y.Real? && y.value != 0.0 { assert x.value / y.value * y.value == x.value; }
  }

  lemma ArithmeticOp(op: Op)
    ensures SpellOp(op) == "+" <==> op == Plus
    ensures SpellOp(op) == "-" <==> op == Minus
    ensures SpellOp(op) == "*" <==> op == Star
    ensures SpellOp(op) == "/" <==> op == Slash
  {
    forall other: Op ensures SpellOp(op) == SpellOp(other) ==> op == other { Spelled(op, other); }
  }

  /** The remainder of the operands cut off towards zero: it is smaller than the divisor, has
      the sign of the dividend, and the rest of the dividend is a multiple of the divisor. */
  lemma RemainderServed(names: Names, op: BinOp, l: Expr, r: Expr, history: seq<Status>)
    returns (a: int, b: int, q: int)
    requires Supported(names, l) && Supported(names, r) && SpellOp(op) == "%"
    requires Value(names, l, history).Real? && Value(names, r, history).Real?
    ensures Supported(names, Bin(op, l, r))
    ensures var (v, x, y) := (Value(names, Bin(op, l, r), history), Value(names, l, history), Value(names, r, history));
            && CutOff(x.value, a) && CutOff(y.value, b)
            && (v == C.NaN <==> -1.0 < y.value < 1.0)
            && (v.Real? ==>
                  && v.value == (a - q * b) as real
                  && (if b < 0 then b else -b) < a - q * b < (if b < 0 then -b else b)
                  && (a >= 0 ==> a - q * b >= 0) && (a <= 0 ==> a - q * b <= 0))
  {
    hide Served, Value, Supported;
    BinaryServed(names, op, l, r, history);
    Spelled(op, Percent);
    var (x, y) := (Value(names, l, history), Value(names, r, history));
    a, b := C.Truncate(x.value), C.Truncate(y.value);
    q := Quotient(a, b);
    if b != 0 { RemainderIsLeft(a, b); }
  }

  /** The quotient cut off towards zero. */
  function Quotient(a: int, b: int): int {
    if b == 0 then 0
    else
      var m := if b < 0 then -b else b;
      var q := if a < 0 then -((-a) / m) else a / m;
      if b < 0 then -q else q
  }

  lemma RemainderIsLeft(a: int, b: int)
    requires b != 0
    ensures C.Remainder(a, b) == a - Quotient(a, b) * b
  {
    var m := if b < 0 then -b else b;
    var n := if a < 0 then -a else a;
    assert n == m * (n / m) + n % m;
    assert b < 0 ==> Quotient(a, b) * b == (-Quotient(a, b)) * m;
  }

  /** A remainder by or of no number is none. */
  lemma NoRemainder(names: Names, op: BinOp, l: Expr, r: Expr, history: seq<Status>)
    requires Supported(names, l) && Supported(names, r) && SpellOp(op) == "%"
    requires Value(names, l, history) == C.NaN || Value(names, r, history) == C.NaN
    ensures Supported(names, Bin(op, l, r)) && Value(names, Bin(op, l, r), history) == C.NaN
  {
    hide Served, Value, Supported;
    BinaryServed(names, op, l, r, history);
    Spelled(op, Percent);
  }

  /** Negation, however it is written. */
  lemma NotServed(names: Names, bang: bool, e: Expr, history: seq<Status>)
    requires Supported(names, e)
    ensures Supported(names, Not(bang, e))
    ensures var (v, x) := (Value(names, Not(bang, e), history), Value(names, e, history));
            IsTruth(v) && (Holds(v) <==> x == C.Real(0.0))
  {
    hide Served;
    ServedAsMeant(names, e, history);
    ServedAsMeant(names, Not(bang, e), history);
  }

  // --------------------------------------------------------------- operands

  /** The words for states are numbers, and any other word is what strtod makes of it. */
  lemma WordServed(names: Names, w: string, history: seq<Status>)
    requires ExpTokens.IsOperand(w)
    ensures Supported(names, Leaf(w))
    ensures Value(names, Leaf(w), history) == C.Real(
              if w in {"OK", "UP"} then 0.0
              else if w in {"WARNING", "DOWN"} then 1.0
              else if w in {"CRITICAL", "UNREACHABLE"} then 2.0
              else if w == "UNKNOWN" then 3.0
              else names.strtod(w))
  {
    hide Served, Classify;
    ServedAsMeant(names, Leaf(w), history);
  }

  function StatusCall(host: string, service: string): Expr {
    Call(ServiceStatus, Arg(Leaf(host), Arg(Leaf(service), NoArgs)))
  }

  /** SERVICESTATUS has the hard state of the last status received about that service of that
      host, whatever was received about others since, and none before the first. */
  lemma StatusServed(names: Names, host: string, service: string, history: seq<Status>, h: nat, s: nat, state: C.ServiceState)
    requires ExpTokens.IsOperand(host) && ExpTokens.IsOperand(service)
    requires (host, service) in names.services && h > 0 && s > 0
    requires var ids := names.services[(host, service)]; ids.0 > 0 && ids.1 > 0
    ensures var e := StatusCall(host, service);
            && Supported(names, e)
            && Value(names, e, []) == C.Real(0.0)
            && Value(names, e, history + [Status(h, s, state)]) ==
               if names.services[(host, service)] == (h, s) then C.Real(state.hard) else Value(names, e, history)
  {
    hide Served, Classify;
    var e := StatusCall(host, service);
    StatusMeans(names, host, service);
    ServedAsMeant(names, e, []);
    ServedAsMeant(names, e, history);
    ServedAsMeant(names, e, history + [Status(h, s, state)]);
    assert (history + [Status(h, s, state)])[..|history|] == history;
  }

  lemma StatusMeans(names: Names, host: string, service: string)
    requires ExpTokens.IsOperand(host) && ExpTokens.IsOperand(service) && Found(names, host, service)
    ensures var e := StatusCall(host, service);
            var ids := names.services[(host, service)];
            Supported(names, e) && Meaning(names, e) == Some(Operand.Node(Tree.Service(ids.0, ids.1)))
  {
    hide Classify;
    var rest := Arg(Leaf(service), NoArgs);
    assert Meaning(names, Leaf(host)) == Some(Text(host)) && Meaning(names, Leaf(service)) == Some(Text(service));
    assert ExpText.ArgsHaveOperands(NoArgs) && ExpText.ArgsHaveOperands(rest);
    assert PlainMore(NoArgs) && PlainMore(rest);
    var e := StatusCall(host, service);
    assert ExpText.HasOperands(Leaf(host)) && ExpText.HasOperands(Leaf(service));
    assert ExpText.ArgsHaveOperands(Arg(Leaf(host), rest));
    assert Plain(e);
    assert Meaning(names, e).Some?;
  }

  /** A service that is not configured, or whose id or host id is 0, makes the builder throw. */
  lemma UnknownServiceServed(names: Names, host: string, service: string, history: seq<Status>)
    requires ExpTokens.IsOperand(host) && ExpTokens.IsOperand(service)
    requires (host, service) in names.services ==>
               names.services[(host, service)].0 == 0 || names.services[(host, service)].1 == 0
    ensures Served(names, TextOf(StatusCall(host, service)), history) == None
  {
    hide Evaluate, Execute, Classify, ExpText.GetPostfixOf, ExpText.Text, Print, Postorder;
    var e := StatusCall(host, service);
    StatusIsPlain(host, service);
    ExpText.TextCompilesIffPlain(e);
    var empty: Operands := ExpParser.Nil;
    var (h, s) := (Operand.Text(host), Operand.Text(service));
    var (stack1, stack2) := (ExpParser.Cons(h, empty), ExpParser.Cons(s, ExpParser.Cons(h, empty)));
    var call := [Function(ServiceStatus), ExpTokens.Word(ExpParser.Decimal(2))] + [];
    StatusPostorder(host, service);
    assert Postorder(e) == [ExpTokens.Word(host)] + ([ExpTokens.Word(service)] + call);
    ExecuteWord(names, host, [ExpTokens.Word(service)] + call, empty);
    ExecuteWord(names, service, call, stack1);
    ExecuteCall(names, ServiceStatus, 2, [], stack2);
    StringsPopped(names, host, service);
  }

  lemma StringsPopped(names: Names, host: string, service: string)
    requires host != "" && service != ""
    ensures var stack := ExpParser.Cons(Operand.Text(service), ExpParser.Cons(Operand.Text(host), ExpParser.Nil));
            PopStrings(stack, 2) == ExpBuilder.Ok(([service, host], ExpParser.Nil))
  {
    var empty: Operands := ExpParser.Nil;
    var one := ExpParser.Cons(Operand.Text(host), empty);
    assert PopStrings(empty, 0) == ExpBuilder.Ok(([], empty));
    assert [host] + [] == [host];
    assert PopStrings(one, 1) == ExpBuilder.Ok(([host], empty));
    assert [service] + [host] == [service, host];
  }

  lemma StatusIsPlain(host: string, service: string)
    requires ExpTokens.IsOperand(host) && ExpTokens.IsOperand(service)
    ensures ExpText.HasOperands(StatusCall(host, service)) && Plain(StatusCall(host, service))
    ensures host != "" && service != ""
  {
    hide Classify;
    var rest := Arg(Leaf(service), NoArgs);
    assert ExpText.ArgsHaveOperands(NoArgs) && ExpText.ArgsHaveOperands(rest) && PlainMore(NoArgs) && PlainMore(rest);
    assert ExpText.HasOperands(Leaf(host)) && ExpText.HasOperands(Leaf(service));
    assert ExpText.ArgsHaveOperands(Arg(Leaf(host), rest));
  }

  lemma StatusPostorder(host: string, service: string)
    ensures Postorder(StatusCall(host, service)) ==
            [ExpTokens.Word(host), ExpTokens.Word(service), Function(ServiceStatus), ExpTokens.Word(ExpParser.Decimal(2))]
  {
    var rest := Arg(Leaf(service), NoArgs);
    assert Postorder(Leaf(host)) == [ExpTokens.Word(host)] && Postorder(Leaf(service)) == [ExpTokens.Word(service)];
    assert PostorderArgs(NoArgs) == [] && PostorderArgs(rest) == [ExpTokens.Word(service)];
    assert Count(rest) == 1 && Count(Arg(Leaf(host), rest)) == 2;
  }

  /** A service between braces is served like SERVICESTATUS of its host and itself. */
  lemma BracedServed(names: Names, host: string, service: string, history: seq<Status>)
    requires ExpTokens.IsOperand(host) && ExpTokens.IsOperand(service) && !ExpTokenizer.IsKeyword(host)
    ensures Served(names, ExpText.Braced(host, service), history) ==
            Served(names, TextOf(StatusCall(host, service)), history)
  {
    hide ExpText.GetPostfixOf, ExpText.Braced, ExpText.Text, Print;
    ExpText.BracedIsCall(host, service);
  }
}

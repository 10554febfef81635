/** The vocabulary shared by the tokenizer, the parser and the builder of BAM
    boolean expressions.

    The program compares token strings; here a string is classified once, by
    `Classify`, and the later stages work on the classified tokens. `Spell`
    gives the string back. */
module ExpTokens {

  datatype Op =
    | AmpAmp | AndWord | PipePipe | OrWord | Caret | XorWord
    | Is | NotWord | Gt | Ge | Lt | Le | EqEq | NotEq
    | Plus | Minus | Star | Slash | Percent
    | NegU | Bang

  datatype Fn =
    | HostStatus | ServiceStatus | Metrics | Metric | Average
    | CountFn | MaxFn | MinFn | SumFn | CallFn

  datatype Token =
    | Operator(op: Op)
    | Function(fn: Fn)
    | Open
    | Close
    | Comma
    | Word(text: string)

  function SpellOp(op: Op): (s: string)
    ensures |s| > 0
  {
    match op
    case AmpAmp => "&&"
    case AndWord => "AND"
    case PipePipe => "||"
    case OrWord => "OR"
    case Caret => "^"
    case XorWord => "XOR"
    case Is => "IS"
    case NotWord => "NOT"
    case Gt => ">"
    case Ge => ">="
    case Lt => "<"
    case Le => "<="
    case EqEq => "=="
    case NotEq => "!="
    case Plus => "+"
    case Minus => "-"
    case Star => "*"
    case Slash => "/"
    case Percent => "%"
    case NegU => "-u"
    case Bang => "!"
  }

  function SpellFn(fn: Fn): (s: string)
    ensures |s| > 2
  {
    match fn
    case HostStatus => "HOSTSTATUS"
    case ServiceStatus => "SERVICESTATUS"
    case Metrics => "METRICS"
    case Metric => "METRIC"
    case Average => "AVERAGE"
    case CountFn => "COUNT"
    case MaxFn => "MAX"
    case MinFn => "MIN"
    case SumFn => "SUM"
    case CallFn => "CALL"
  }

  function Spell(t: Token): string {
    match t
    case Operator(op) => SpellOp(op)
    case Function(fn) => SpellFn(fn)
    case Open => "("
    case Close => ")"
    case Comma => ","
    case Word(text) => text
  }

  /** exp_parser::is_operator together with the test against each operator. */
  function AsOperator(s: string): (r: Token)
    ensures r.Operator? || r == Word(s)
    ensures r.Operator? ==> SpellOp(r.op) == s
  {
    if s == "+" then Operator(Plus)
    else if s == "-" then Operator(Minus)
    else if s == "-u" then Operator(NegU)
    else if s == "*" then Operator(Star)
    else if s == "/" then Operator(Slash)
    else if s == "%" then Operator(Percent)
    else if s == ">" then Operator(Gt)
    else if s == ">=" then Operator(Ge)
    else if s == "<" then Operator(Lt)
    else if s == "<=" then Operator(Le)
    else if s == "==" then Operator(EqEq)
    else if s == "IS" then Operator(Is)
    else if s == "NOT" then Operator(NotWord)
    else if s == "!=" then Operator(NotEq)
    else if s == "!" then Operator(Bang)
    else if s == "AND" then Operator(AndWord)
    else if s == "^" then Operator(Caret)
    else if s == "XOR" then Operator(XorWord)
    else if s == "&&" then Operator(AmpAmp)
    else if s == "OR" then Operator(OrWord)
    else if s == "||" then Operator(PipePipe)
    else Word(s)
  }

  /** exp_parser::is_function together with the test against each function. */
  function AsFunction(s: string): (r: Token)
    ensures r.Function? || r == Word(s)
    ensures r.Function? ==> SpellFn(r.fn) == s
  {
    if s == "HOSTSTATUS" then Function(HostStatus)
    else if s == "SERVICESTATUS" then Function(ServiceStatus)
    else if s == "METRICS" then Function(Metrics)
    else if s == "METRIC" then Function(Metric)
    else if s == "AVERAGE" then Function(Average)
    else if s == "COUNT" then Function(CountFn)
    else if s == "MAX" then Function(MaxFn)
    else if s == "MIN" then Function(MinFn)
    else if s == "SUM" then Function(SumFn)
    else if s == "CALL" then Function(CallFn)
    else Word(s)
  }

  /** The order of the tests in exp_parser::get_postfix. */
  function Classify(s: string): (t: Token)
    ensures Spell(t) == s
  {
    if AsFunction(s).Function? then AsFunction(s)
    else if s == "," then Comma
    else if AsOperator(s).Operator? then AsOperator(s)
    else if s == "(" then Open
    else if s == ")" then Close
    else Word(s)
  }

  /** A word that no other token is spelled like: what the parser takes for an operand. */
  predicate IsOperand(s: string) {
    s != "" && Classify(s) == Word(s)
  }

  lemma ClassifySpellOp(op: Op)
    ensures Classify(SpellOp(op)) == Operator(op)
  {
    var s := SpellOp(op);
    match op
    case AmpAmp => assert |s| == 2 && s[0] == '&';
    case AndWord => assert |s| == 3 && s[0] == 'A';
    case PipePipe => assert |s| == 2 && s[0] == '|';
    case OrWord => assert |s| == 2 && s[0] == 'O';
    case Caret => assert |s| == 1 && s[0] == '^';
    case XorWord => assert |s| == 3 && s[0] == 'X';
    case Is => assert |s| == 2 && s[0] == 'I';
    case NotWord => assert |s| == 3 && s[0] == 'N';
    case Gt => assert |s| == 1 && s[0] == '>';
    case Ge => assert |s| == 2 && s[0] == '>';
    case Lt => assert |s| == 1 && s[0] == '<';
    case Le => assert |s| == 2 && s[0] == '<';
    case EqEq => assert |s| == 2 && s[0] == '=';
    case NotEq => assert |s| == 2 && s[0] == '!';
    case Plus => assert |s| == 1 && s[0] == '+';
    case Minus => assert |s| == 1 && s[0] == '-';
    case Star => assert |s| == 1 && s[0] == '*';
    case Slash => assert |s| == 1 && s[0] == '/';
    case Percent => assert |s| == 1 && s[0] == '%';
    case NegU => assert |s| == 2 && s[0] == '-';
    case Bang => assert |s| == 1 && s[0] == '!';
  }

  lemma ClassifySpellFn(fn: Fn)
    ensures Classify(SpellFn(fn)) == Function(fn)
  {
    var s := SpellFn(fn);
    match fn
    case HostStatus => assert |s| == 10;
    case ServiceStatus => assert |s| == 13;
    case Metrics => assert |s| == 7 && s[0] == 'M';
    case Metric => assert |s| == 6;
    case Average => assert |s| == 7 && s[0] == 'A';
    case CountFn => assert |s| == 5;
    case MaxFn => assert |s| == 3 && s[0] == 'M' && s[1] == 'A';
    case MinFn => assert |s| == 3 && s[0] == 'M' && s[1] == 'I';
    case SumFn => assert |s| == 3 && s[0] == 'S';
    case CallFn => assert |s| == 4;
  }

  predicate WellSpelled(t: Token) {
    t.Word? ==> IsOperand(t.text)
  }

  /** No two tokens share a spelling: classifying the spelling of a token gives it back. */
  lemma ClassifySpell(t: Token)
    requires WellSpelled(t)
    ensures Classify(Spell(t)) == t
  {
    match t
    case Operator(op) => ClassifySpellOp(op);
    case Function(fn) => ClassifySpellFn(fn);
    case Open => assert |Spell(t)| == 1 && Spell(t)[0] == '(';
    case Close => assert |Spell(t)| == 1 && Spell(t)[0] == ')';
    case Comma => assert |Spell(t)| == 1 && Spell(t)[0] == ',';
    case Word(_) =>
  }
}

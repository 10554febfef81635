/** Writing tokens as text: what the tokenizer reads back, and with it the whole front
    end of the compiler, from the text of an expression to its postfix notation. */
module ExpText {
  import opened ExpTokens
  import opened ExpTokenizer
  import ExpParser
  import opened ExpPrinter

  /** chunk stands at position i of text. */
  ghost predicate At(text: string, i: nat, chunk: string) {
    && i + |chunk| <= |text|
    && forall k {:trigger chunk[k]} :: 0 <= k < |chunk| ==> text[i + k] == chunk[k]
  }

  /** ... and a space or the end of the text follows it. */
  ghost predicate StandsAt(text: string, i: nat, chunk: string) {
    At(text, i, chunk) && (i + |chunk| < |text| ==> text[i + |chunk|] == ' ')
  }

  lemma AtSplit(text: string, i: nat, a: string, b: string)
    requires At(text, i, a + b)
    ensures At(text, i, a) && At(text, i + |a|, b)
  {
    forall k | 0 <= k < |a| ensures text[i + k] == a[k] {
      assert (a + b)[k] == a[k];
    }
    forall k | 0 <= k < |b| ensures text[i + |a| + k] == b[k] {
      assert (a + b)[|a| + k] == b[k];
    }
  }

  function EscapeChar(c: char): string {
    if c == '"' || c == '\\' then ['\\', c] else [c]
  }

  function Escape(w: string): string {
    if w == "" then "" else EscapeChar(w[0]) + Escape(w[1..])
  }

  /** w in double quotes, backslashes and double quotes escaped. */
  function Quote(w: string): string { "\"" + (Escape(w) + "\"") }

  lemma {:induction false} QuotedReadsEscape(text: string, i: nat, w: string)
    requires At(text, i, Escape(w) + "\"")
    ensures Quoted(text, i, '"') == Body(w, i + |Escape(w)|)
    decreases |w|
  {
    hide Quoted, At, EscapeChar, AddToBody;
    AtSplit(text, i, Escape(w), "\"");
    AtQuote(text, i + |Escape(w)|);
    if w != "" {
      var head, tail := EscapeChar(w[0]), Escape(w[1..]);
      assert Escape(w) + "\"" == head + (tail + "\"");
      AtSplit(text, i, head, tail + "\"");
      QuotedReadsEscape(text, i + |head|, w[1..]);
      QuotedStep(text, i, w[0]);
      AddToRead(w, i + |Escape(w)|);
    }
  }

  lemma AtQuote(text: string, i: nat)
    requires At(text, i, "\"")
    ensures Quoted(text, i, '"') == Body("", i)
  {
    assert text[i] == "\""[0];
  }

  lemma AddToRead(w: string, end: nat)
    requires w != ""
    ensures AddToBody([w[0]], Body(w[1..], end)) == Body(w, end)
  {
    assert [w[0]] + w[1..] == w;
  }

  lemma QuotedStep(text: string, i: nat, c: char)
    requires At(text, i, EscapeChar(c))
    ensures Quoted(text, i, '"') == AddToBody([c], Quoted(text, i + |EscapeChar(c)|, '"'))
  {
    assert text[i] == EscapeChar(c)[0];
    if |EscapeChar(c)| == 2 {
      assert text[i + 1] == EscapeChar(c)[1];
    }
  }

  lemma QuoteScan(text: string, i: nat, w: string)
    requires StandsAt(text, i, Quote(w))
    ensures text[i] == '"' && ExtractUntil(text, i, AtDelimiter) == Scan(w, i + |Quote(w)|)
  {
    hide Quoted, Escape;
    var end := i + |Quote(w)|;
    AtSplit(text, i, "\"", Escape(w) + "\"");
    assert text[i] == "\""[0];
    QuotedReadsEscape(text, i + 1, w);
    assert ExtractUntil(text, end, AtDelimiter) == Scan("", end);
    assert w + "" == w;
  }

  /** A quoted string of at least one character is read back as that string. */
  lemma QuoteReadBack(text: string, i: nat, w: string)
    requires w != "" && StandsAt(text, i, Quote(w))
    ensures ReadNext(text, i) == Next(w, i + |Quote(w)|, [])
  {
    hide ExtractUntil, Escape;
    QuoteScan(text, i, w);
    assert SkipSpaces(text, i) == i;
  }

  predicate IsPlain(c: char) {
    !Stops(AtDelimiter, c) && c != '\'' && c != '"' && c != '\\' && c != '{'
  }

  lemma {:induction false} PlainScan(text: string, i: nat, w: string)
    requires StandsAt(text, i, w)
    requires forall k :: 0 <= k < |w| ==> IsPlain(w[k])
    ensures ExtractUntil(text, i, AtDelimiter) == Scan(w, i + |w|)
    decreases |w|
  {
    if w != "" {
      assert text[i] == w[0];
      assert w == w[..1] + w[1..];
      AtSplit(text, i, w[..1], w[1..]);
      PlainScan(text, i + 1, w[1..]);
      assert [w[0]] + w[1..] == w;
    }
  }

  lemma PlainReadBack(text: string, i: nat, w: string)
    requires w != "" && StandsAt(text, i, w)
    requires forall k :: 0 <= k < |w| ==> IsPlain(w[k])
    ensures ReadNext(text, i) == Next(w, i + |w|, [])
  {
    PlainScan(text, i, w);
    assert text[i] == w[0];
    assert SkipSpaces(text, i) == i;
  }

  lemma SymbolReadBack(text: string, i: nat, w: string)
    requires IsSymbol(w) && StandsAt(text, i, w)
    ensures ReadNext(text, i) == Next(w, i + |w|, [])
  {
    assert text[i] == w[0];
    assert SkipSpaces(text, i) == i;
    if |w| == 2 {
      assert text[i + 1] == w[1];
    }
    assert text[i..i + |w|] == w;
  }

  // ------------------------------------------------------------------ braces

  /** A quoted string is read up to what stops the scan, whatever it holds. */
  lemma QuoteScanUntil(text: string, i: nat, w: string, stop: Stop)
    requires At(text, i, Quote(w)) && i + |Quote(w)| < |text| && Stops(stop, text[i + |Quote(w)|])
    ensures ExtractUntil(text, i, stop) == Scan(w, i + |Quote(w)|)
  {
    hide Quoted, Escape;
    var end := i + |Quote(w)|;
    AtSplit(text, i, "\"", Escape(w) + "\"");
    assert text[i] == "\""[0];
    QuotedReadsEscape(text, i + 1, w);
    assert ExtractUntil(text, end, stop) == Scan("", end);
    assert w + "" == w;
  }

  /** A service between braces, its host first. */
  function Braced(host: string, service: string): string {
    "{" + (Quote(host) + (" " + (Quote(service) + "}")))
  }

  /** The service between braces is read as SERVICESTATUS of its host and itself. */
  lemma BracedReadBack(text: string, i: nat, host: string, service: string)
    requires At(text, i, Braced(host, service)) && !IsKeyword(host)
    ensures ReadNext(text, i) ==
            Next("SERVICESTATUS", i + |Braced(host, service)|, ["(", host, ",", service, ")"])
  {
    hide ExtractUntil, Quote, At, IsKeyword;
    AtSplit(text, i, "{", Quote(host) + (" " + (Quote(service) + "}")));
    AtSplit(text, i + 1, Quote(host), " " + (Quote(service) + "}"));
    var space := i + 1 + |Quote(host)|;
    AtSplit(text, space, " ", Quote(service) + "}");
    AtSplit(text, space + 1, Quote(service), "}");
    var end := space + 1 + |Quote(service)|;
    CharAt(text, i, '{');
    CharAt(text, space, ' ');
    CharAt(text, end, '}');
    QuoteScanUntil(text, i + 1, host, AtSpaceOrBrace);
    StartsWithQuote(text, space + 1, service);
    assert SkipSpaces(text, space) == space + 1;
    QuoteScanUntil(text, space + 1, service, AtBrace);
    assert SkipSpaces(text, i) == i;
  }

  lemma CharAt(text: string, i: nat, c: char)
    requires At(text, i, [c])
    ensures i < |text| && text[i] == c
  {
    assert text[i] == [c][0];
  }

  lemma StartsWithQuote(text: string, i: nat, w: string)
    requires At(text, i, Quote(w))
    ensures i < |text| && text[i] == '"'
  {
    assert text[i] == Quote(w)[0];
  }

  /** A host alone between braces is read as HOSTSTATUS of it. */
  lemma BracedHostReadBack(text: string, i: nat, host: string)
    requires At(text, i, "{" + (Quote(host) + "}")) && !IsKeyword(host)
    ensures ReadNext(text, i) == Next("HOSTSTATUS", i + |Quote(host)| + 2, ["(", host, ")"])
  {
    hide ExtractUntil, Quote, At, IsKeyword;
    AtSplit(text, i, "{", Quote(host) + "}");
    AtSplit(text, i + 1, Quote(host), "}");
    var end := i + 1 + |Quote(host)|;
    CharAt(text, i, '{');
    CharAt(text, end, '}');
    QuoteScanUntil(text, i + 1, host, AtSpaceOrBrace);
    assert SkipSpaces(text, end) == end && SkipSpaces(text, i) == i;
  }

  /** An operator word or the name of a state between braces is read as itself. */
  lemma BracedWordReadBack(text: string, i: nat, w: string)
    requires w in {"IS", "NOT", "AND", "OR", "XOR", "OK", "WARNING", "CRITICAL", "UNKNOWN", "UP", "DOWN", "UNREACHABLE"}
    requires At(text, i, "{" + (Quote(w) + "}"))
    ensures ReadNext(text, i) == Next(w, i + |Quote(w)| + 2, [])
  {
    hide ExtractUntil, Quote, At;
    AtSplit(text, i, "{", Quote(w) + "}");
    AtSplit(text, i + 1, Quote(w), "}");
    var end := i + 1 + |Quote(w)|;
    CharAt(text, i, '{');
    CharAt(text, end, '}');
    QuoteScanUntil(text, i + 1, w, AtSpaceOrBrace);
    assert SkipSpaces(text, i) == i;
  }

  /** The text that consists of a service between braces has the tokens of a call. */
  lemma BracedTokens(host: string, service: string)
    requires host != "" && service != "" && !IsKeyword(host)
    ensures Tokenize(Braced(host, service), 0, []) ==
            Tokens(["SERVICESTATUS", "(", host, ",", service, ")"])
  {
    hide ReadNext, Braced;
    var text := Braced(host, service);
    assert At(text, 0, text);
    BracedReadBack(text, 0, host, service);
    AtEnd(text);
    var end := |text|;
    assert Tokenize(text, end, []) == Tokens([]);
    assert Tokenize(text, end, [")"]) == Tokens([")"]) by { QueueFirst(text, [")"]); }
    QueueFirst(text, [service, ")"]);
    QueueFirst(text, [",", service, ")"]);
    QueueFirst(text, [host, ",", service, ")"]);
    QueueFirst(text, ["(", host, ",", service, ")"]);
  }

  lemma QueueFirst(text: string, queue: seq<string>)
    requires queue != [] && queue[0] != "" && Tokenize(text, |text|, queue[1..]) == Tokens(queue[1..])
    ensures Tokenize(text, |text|, queue) == Tokens(queue)
  {
    assert [queue[0]] + queue[1..] == queue;
  }

  // ------------------------------------------------------------- token lists

  /** Words are quoted, and so is `-u`, which the tokenizer would split; the other
      tokens are written as they are spelled. */
  function Written(t: Token): string {
    if t.Word? || t == Operator(NegU) then Quote(Spell(t)) else Spell(t)
  }

  function Text(ts: seq<Token>): string {
    if ts == [] then "" else Written(ts[0]) + " " + Text(ts[1..])
  }

  predicate IsPlainWord(w: string) {
    w != "" && forall k :: 0 <= k < |w| ==> IsPlain(w[k])
  }

  lemma SpellingReadBack(text: string, i: nat, t: Token)
    requires !t.Word? && t != Operator(NegU) && StandsAt(text, i, Spell(t))
    ensures ReadNext(text, i) == Next(Spell(t), i + |Spell(t)|, [])
  {
    hide ReadNext, StandsAt;
    var w := Spell(t);
    SpellingShapes(t);
    if IsPlainWord(w) {
      PlainReadBack(text, i, w);
    } else {
      SymbolReadBack(text, i, w);
    }
  }

  predicate IsSymbol(w: string) {
    || (|w| == 1 && IsSpecial(w[0]))
    || (|w| == 2 && IsSpecial(w[0]) && IsDouble(w[0], w[1]))
  }

  lemma LettersArePlain(w: string)
    requires w != "" && forall k :: 0 <= k < |w| ==> 'A' <= w[k] <= 'Z'
    ensures IsPlainWord(w)
  {}

  lemma SpellingShapes(t: Token)
    requires !t.Word? && t != Operator(NegU)
    ensures IsPlainWord(Spell(t)) || IsSymbol(Spell(t))
  {
    hide IsPlainWord;
    var w := Spell(t);
    if t.Operator? && t.op in {AndWord, OrWord, XorWord, Is, NotWord} {
      LettersArePlain(w);
    } else if t == Operator(Caret) {
      CaretIsPlain();
    } else if t.Function? {
      FunctionLetters(t.fn);
      LettersArePlain(w);
    }
  }

  lemma CaretIsPlain()
    ensures IsPlainWord("^")
  {}

  lemma FunctionLetters(fn: Fn)
    ensures var w := SpellFn(fn); forall k :: 0 <= k < |w| ==> 'A' <= w[k] <= 'Z'
  {}

  lemma WrittenReadBack(text: string, i: nat, t: Token)
    requires Spell(t) != "" && StandsAt(text, i, Written(t))
    ensures ReadNext(text, i) == Next(Spell(t), i + |Written(t)|, [])
    ensures !IsSpace(Written(t)[0])
  {
    if t.Word? || t == Operator(NegU) {
      QuoteReadBack(text, i, Spell(t));
    } else {
      SpellingReadBack(text, i, t);
      SpellingShapes(t);
    }
  }

  function Spellings(ts: seq<Token>): seq<string> {
    if ts == [] then [] else [Spell(ts[0])] + Spellings(ts[1..])
  }

  lemma ReadNextSkips(text: string, i: nat)
    requires i < |text| && text[i] == ' '
    ensures ReadNext(text, i) == ReadNext(text, i + 1)
  {}

  /** The tokenizer reads back every token list that was written, whether it starts
      on the text itself or on the space before it. */
  lemma {:induction false} TextReadBack(text: string, i: nat, ts: seq<Token>)
    requires At(text, i, Text(ts)) && i + |Text(ts)| == |text|
    requires forall t :: t in ts ==> Spell(t) != ""
    ensures Tokenize(text, i, []) == Tokens(Spellings(ts))
    ensures i > 0 && text[i - 1] == ' ' ==> Tokenize(text, i - 1, []) == Tokens(Spellings(ts))
    decreases |ts|
  {
    hide ReadNext, Written, Spell, StandsAt;
    if ts != [] {
      var chunk, more := Written(ts[0]), Text(ts[1..]);
      assert Text(ts) == chunk + (" " + more);
      AtSplit(text, i, chunk, " " + more);
      AtSplit(text, i + |chunk|, " ", more);
      assert text[i + |chunk|] == " "[0];
      assert StandsAt(text, i, chunk) by { StandsBeforeSpace(text, i, chunk); }
      WrittenReadBack(text, i, ts[0]);
      TextReadBack(text, i + |chunk| + 1, ts[1..]);
    } else {
      AtEnd(text);
    }
    if i > 0 && text[i - 1] == ' ' {
      ReadNextSkips(text, i - 1);
    }
  }

  lemma StandsBeforeSpace(text: string, i: nat, chunk: string)
    requires At(text, i, chunk) && i + |chunk| < |text| && text[i + |chunk|] == ' '
    ensures StandsAt(text, i, chunk)
  {}

  lemma AtEnd(text: string)
    ensures ReadNext(text, |text|) == Next("", |text|, [])
  {}

  // ------------------------------------------------------ the whole front end

  /** What get_postfix returns, or why it throws. */
  datatype Notation =
    | Notation(postfix: seq<Token>)
    | BadText(lexical: ExpTokenizer.Error)
    | BadSyntax(syntax: ExpParser.Error)

  function ClassifyAll(list: seq<string>): seq<Token> {
    if list == [] then [] else [Classify(list[0])] + ClassifyAll(list[1..])
  }

  function GetPostfixOf(text: string): Notation {
    match Tokenize(text, 0, [])
    case NoTokens(error) => BadText(error)
    case Tokens(list) =>
      match ExpParser.Postfix(ClassifyAll(list))
      case Err(error) => BadSyntax(error)
      case Ok(postfix) => Notation(postfix)
  }

  /** exp_parser::get_postfix, from the text. */
  method GetPostfix(text: string) returns (r: Notation)
    ensures r == GetPostfixOf(text)
  {
    var tokenizer := new Tokenizer(text);
    var read := tokenizer.ReadAll();
    if read.NoTokens? { return BadText(read.error); }
    var tokens := ClassifyAll(read.list);
    var parser := new ExpParser.Parser(tokens);
    var outcome := parser.GetPostfix();
    match outcome {
      case Err(error) => r := BadSyntax(error);
      case Ok(_) => r := Notation(parser.postfix);
    }
  }

  lemma {:induction false} ClassifySpellings(ts: seq<Token>)
    requires forall t :: t in ts ==> WellSpelled(t)
    ensures ClassifyAll(Spellings(ts)) == ts
  {
    hide Classify, Spell, WellSpelled;
    if ts != [] {
      ClassifySpell(ts[0]);
      ClassifySpellings(ts[1..]);
    }
  }

  /** Every operand of e is a word the parser takes for an operand. */
  predicate HasOperands(e: Expr) {
    match e
    case Leaf(word) => IsOperand(word)
    case Neg(arg) => HasOperands(arg)
    case Not(_, arg) => HasOperands(arg)
    case Bin(_, left, right) => HasOperands(left) && HasOperands(right)
    case Call(_, args) => ArgsHaveOperands(args)
  }

  predicate ArgsHaveOperands(args: Args) {
    args.Arg? ==> HasOperands(args.head) && ArgsHaveOperands(args.tail)
  }

  predicate AllWellSpelled(ts: seq<Token>) {
    forall t :: t in ts ==> WellSpelled(t)
  }

  lemma {:induction false} PrintWellSpelled(e: Expr)
    requires HasOperands(e)
    ensures AllWellSpelled(Print(e))
    decreases e, 0
  {
    hide IsOperand;
    match e
    case Leaf(_) =>
    case Neg(arg) => GroupWellSpelled(arg, 6);
    case Not(_, arg) => GroupWellSpelled(arg, 6);
    case Bin(op, left, right) =>
      GroupWellSpelled(left, ExpParser.Precedence(op));
      GroupWellSpelled(right, ExpParser.Precedence(op) + 1);
    case Call(_, args) =>
      if args.Arg? {
        PrintWellSpelled(args.head);
        MoreWellSpelled(args.tail);
      }
  }

  lemma {:induction false} GroupWellSpelled(e: Expr, q: nat)
    requires HasOperands(e)
    ensures AllWellSpelled(Group(e, q))
    decreases e, 1
  {
    hide IsOperand;
    PrintWellSpelled(e);
  }

  lemma {:induction false} MoreWellSpelled(args: Args)
    requires ArgsHaveOperands(args)
    ensures AllWellSpelled(PrintMore(args))
    decreases args, 0
  {
    hide IsOperand;
    if args.Arg? {
      PrintWellSpelled(args.head);
      MoreWellSpelled(args.tail);
    }
  }

  /** From text to postfix: the written form of an expression compiles to its
      postorder if and only if no later argument of a call starts with `-` or `NOT`. */
  lemma TextCompilesIffPlain(e: Expr)
    requires HasOperands(e)
    ensures GetPostfixOf(Text(Print(e))) == Notation(Postorder(e)) <==> Plain(e)
  {
    hide Plain, Postorder, Print, Classify;
    var ts := Print(e);
    PrintWellSpelled(e);
    assert At(Text(ts), 0, Text(ts));
    forall t | t in ts ensures Spell(t) != "" {
      assert WellSpelled(t);
      SpellNotEmpty(t);
    }
    TextReadBack(Text(ts), 0, ts);
    ClassifySpellings(ts);
    ParsedIffPlain(e);
  }

  lemma SpellNotEmpty(t: Token)
    requires WellSpelled(t)
    ensures Spell(t) != ""
  {}

  /** A written token list is read as itself. */
  lemma TextIsRead(ts: seq<Token>)
    requires AllWellSpelled(ts)
    ensures Tokenize(Text(ts), 0, []) == Tokens(Spellings(ts))
  {
    hide Classify;
    assert At(Text(ts), 0, Text(ts));
    forall t | t in ts ensures Spell(t) != "" {
      assert WellSpelled(t);
      SpellNotEmpty(t);
    }
    TextReadBack(Text(ts), 0, ts);
  }

  /** A service between braces is compiled like the call of SERVICESTATUS with its host and
      itself. */
  lemma BracedIsCall(host: string, service: string)
    requires IsOperand(host) && IsOperand(service) && !IsKeyword(host)
    ensures GetPostfixOf(Braced(host, service)) ==
            GetPostfixOf(Text(Print(Call(ServiceStatus, Arg(Leaf(host), Arg(Leaf(service), NoArgs))))))
  {
    hide Tokenize, Braced, Text, Classify, IsKeyword, ExpParser.Postfix, ClassifyAll;
    var call := [Function(ServiceStatus), Open, Word(host), Comma, Word(service), Close];
    CallPrinted(host, service);
    OperandNotEmpty(host);
    OperandNotEmpty(service);
    BracedTokens(host, service);
    TextIsRead(call);
    CallSpelled(host, service);
  }

  lemma OperandNotEmpty(w: string)
    requires IsOperand(w)
    ensures w != ""
  {}

  lemma CallPrinted(host: string, service: string)
    ensures Print(Call(ServiceStatus, Arg(Leaf(host), Arg(Leaf(service), NoArgs)))) ==
            [Function(ServiceStatus), Open, Word(host), Comma, Word(service), Close]
  {
    var rest := Arg(Leaf(service), NoArgs);
    assert PrintMore(NoArgs) == [] && Print(Leaf(host)) == [Word(host)] && Print(Leaf(service)) == [Word(service)];
    assert PrintMore(rest) == [Comma, Word(service)];
    assert Print(Call(ServiceStatus, Arg(Leaf(host), rest))) ==
           [Function(ServiceStatus), Open] + [Word(host)] + [Comma, Word(service)] + [Close];
  }

  lemma CallSpelled(host: string, service: string)
    ensures Spellings([Function(ServiceStatus), Open, Word(host), Comma, Word(service), Close]) ==
            ["SERVICESTATUS", "(", host, ",", service, ")"]
  {
    var ts := [Function(ServiceStatus), Open, Word(host), Comma, Word(service), Close];
    assert ts[1..][1..][1..][1..] == [Word(service), Close];
    assert Spellings([Close]) == [")"] by { assert [Close][1..] == []; }
    assert [Word(service), Close][1..] == [Close];
    assert Spellings([Word(service), Close]) == [service, ")"];
    assert ts[1..][1..][1..] == [Comma, Word(service), Close] && [Comma, Word(service), Close][1..] == [Word(service), Close];
    assert Spellings([Comma, Word(service), Close]) == [",", service, ")"];
    assert ts[1..][1..] == [Word(host), Comma, Word(service), Close];
    assert Spellings(ts[1..][1..]) == [host, ",", service, ")"];
    assert Spellings(ts[1..]) == ["(", host, ",", service, ")"];
  }
}

/** bam/src/exp_tokenizer.cc: cuts the text of a boolean expression into tokens. */
module ExpTokenizer {
  /** When _extract_until stops. */
  datatype Stop = AtDelimiter | AtSpaceOrBrace | AtBrace

  /** A token cut out of a text, and the position after it. That position is one past
      the end of the text when the token ends with a backslash that escapes nothing. */
  datatype Scan = Scan(token: string, next: nat) | NoClosingQuote

  /** The inside of a quoted string, and the position of its closing quote. */
  datatype Body = Body(inside: string, end: nat) | NoQuote

  datatype Error =
    | UnterminatedQuote
    | UnclosedBrace
    | OutOfBounds   // the program reads beyond the end of its text: nothing is promised

  /** The outcome of one call of `next`. */
  datatype Next =
    | Next(token: string, next: nat, queue: seq<string>)
    | Fail(error: Error)

  datatype Tokens = Tokens(list: seq<string>) | NoTokens(error: Error)

  predicate IsSpace(c: char) {
    c == ' ' || '\t' <= c <= '\r'
  }

  predicate IsSpecial(c: char) {
    c in {'(', ')', ',', '+', '-', '*', '/', '%', '=', '!', '>', '<', '|', '&'}
  }

  predicate Stops(stop: Stop, c: char) {
    match stop
    case AtDelimiter => IsSpace(c) || IsSpecial(c)
    case AtSpaceOrBrace => IsSpace(c) || c == '}'
    case AtBrace => c == '}'
  }

  predicate IsDouble(c: char, d: char) {
    (c in {'=', '!', '<', '>'} && d == '=') || (c in {'|', '&'} && d == c)
  }

  /** The words that keep their meaning between braces. */
  predicate IsKeyword(s: string) {
    s in {"IS", "NOT", "AND", "XOR", "OR", "OK", "WARNING", "CRITICAL", "UNKNOWN",
          "UP", "DOWN", "UNREACHABLE"}
  }

  function SkipSpaces(text: string, i: nat): (r: nat)
    requires i <= |text|
    ensures i <= r <= |text|
    ensures r < |text| ==> !IsSpace(text[r])
    ensures i < |text| && !IsSpace(text[i]) ==> r == i
    decreases |text| - i
  {
    if i < |text| && IsSpace(text[i]) then SkipSpaces(text, i + 1) else i
  }

  /** The quoted string that starts after an opening quote: a backslash escapes in
      double quotes only. */
  function Quoted(text: string, i: nat, quote: char): (r: Body)
    ensures r.Body? ==> i <= r.end < |text| && text[r.end] == quote
    decreases |text| - i
  {
    if i >= |text| then NoQuote
    else if text[i] == quote then Body("", i)
    else if quote == '"' && text[i] == '\\' then
      if i + 1 < |text| then AddToBody([text[i + 1]], Quoted(text, i + 2, quote)) else NoQuote
    else AddToBody([text[i]], Quoted(text, i + 1, quote))
  }

  function AddToBody(prefix: string, b: Body): Body {
    if b.NoQuote? then b else b.(inside := prefix + b.inside)
  }

  function AddToScan(prefix: string, s: Scan): Scan {
    if s.NoClosingQuote? then s else s.(token := prefix + s.token)
  }

  function ExtractUntil(text: string, i: nat, stop: Stop): (r: Scan)
    requires i <= |text| + 1
    ensures r.Scan? ==> i <= r.next <= |text| + 1
    ensures r.Scan? && i < |text| && !Stops(stop, text[i]) ==> i < r.next
    ensures r.Scan? && r.next < |text| ==> Stops(stop, text[r.next])
    decreases |text| + 1 - i
  {
    if i >= |text| || Stops(stop, text[i]) then Scan("", i)
    else if text[i] == '\'' || text[i] == '"' then
      var body := Quoted(text, i + 1, text[i]);
      if body.NoQuote? then NoClosingQuote
      else AddToScan(body.inside, ExtractUntil(text, body.end + 1, stop))
    else if text[i] == '\\' then
      if i + 1 < |text| then AddToScan([text[i + 1]], ExtractUntil(text, i + 2, stop))
      else Scan("", i + 2)
    else AddToScan([text[i]], ExtractUntil(text, i + 1, stop))
  }

  /** A `{Host Service}` or `{KEYWORD}` token; i is the position after the left brace. */
  function ExtractBraced(text: string, i: nat): (r: Next)
    requires i <= |text|
    ensures r.Next? ==> i < r.next <= |text|
  {
    match ExtractUntil(text, i, AtSpaceOrBrace)
    case NoClosingQuote => Fail(UnterminatedQuote)
    case Scan(word, next) =>
      if IsKeyword(word) then CloseBrace(text, word, next, [])
      else if next > |text| then Fail(OutOfBounds)
      else
        var more := SkipSpaces(text, next);
        if more < |text| && text[more] != '}' then
          match ExtractUntil(text, more, AtBrace)
          case NoClosingQuote => Fail(UnterminatedQuote)
          case Scan(service, end) =>
            CloseBrace(text, "SERVICESTATUS", end, ["(", word, ",", service, ")"])
        else CloseBrace(text, "HOSTSTATUS", more, ["(", word, ")"])
  }

  function CloseBrace(text: string, token: string, i: nat, queue: seq<string>): Next {
    if i < |text| && text[i] == '}' then Next(token, i + 1, queue) else Fail(UnclosedBrace)
  }

  /** A call of `next` when the queue is empty. */
  function ReadNext(text: string, i: nat): (r: Next)
    ensures r.Next? ==> i <= |text| && r.next <= |text| + 1
    ensures r.Next? && SkipSpaces(text, i) < |text| ==> i < r.next
  {
    if i > |text| then Fail(OutOfBounds)
    else
      var j := SkipSpaces(text, i);
      if j == |text| then Next("", j, [])
      else if IsSpecial(text[j]) then
        if j + 1 < |text| && IsDouble(text[j], text[j + 1]) then Next(text[j..j + 2], j + 2, [])
        else Next(text[j..j + 1], j + 1, [])
      else if text[j] == '{' then ExtractBraced(text, j + 1)
      else
        match ExtractUntil(text, j, AtDelimiter)
        case NoClosingQuote => Fail(UnterminatedQuote)
        case Scan(token, next) => Next(token, next, [])
  }

  /** The tokens get_postfix collects: `next` is called until it returns an empty token. */
  function Tokenize(text: string, i: nat, queue: seq<string>): Tokens
    requires i <= |text| + 1
    decreases |text| + 1 - i, |queue|
  {
    if queue != [] then
      if queue[0] == "" then Tokens([]) else AddToken(queue[0], Tokenize(text, i, queue[1..]))
    else
      match ReadNext(text, i)
      case Fail(error) => NoTokens(error)
      case Next(token, next, queue') =>
        if token == "" then Tokens([]) else AddToken(token, Tokenize(text, next, queue'))
  }

  function AddToken(t: string, ts: Tokens): Tokens {
    if ts.NoTokens? then ts else Tokens([t] + ts.list)
  }

  // ----------------------------------------------------------------- object

  class Tokenizer {
    const text: string
    var current: nat
    var next: nat
    var queue: seq<string>

    constructor (text: string)
      ensures this.text == text && Valid() && next == 0 && queue == []
    {
      this.text := text;
      current, next, queue := 0, 0, [];
    }

    ghost predicate Valid()
      reads this
    {
      next <= |text| + 1
    }

    method SkipWs()
      requires current <= |text|
      modifies this`current
      ensures current == SkipSpaces(text, old(current))
    {
      while current < |text| && IsSpace(text[current])
        invariant current <= |text|
        invariant SkipSpaces(text, current) == SkipSpaces(text, old(current))
      {
        current := current + 1;
      }
    }

    /** The inner loop of _extract_until, from an opening quote. */
    method ExtractQuoted(quote: char) returns (matched: bool, inside: string)
      requires next < |text|
      modifies this`next
      ensures Quoted(text, old(next) + 1, quote) == if matched then Body(inside, next) else NoQuote
    {
      hide Quoted, AddToBody;
      matched, inside := false, "";
      next := next + 1;
      AddNothingToBody(Quoted(text, next, quote));
      while next < |text|
        invariant old(next) < next <= |text| + 1
        invariant Quoted(text, old(next) + 1, quote) == AddToBody(inside, Quoted(text, next, quote))
      {
        QuotedTurn(text, next, quote);
        if text[next] == quote {
          AddToClosed(inside, next);
          return true, inside;
        }
        var escaped := quote == '"' && text[next] == '\\';
        if escaped { next := next + 1; }
        if next < |text| {
          AddToBodyTwice(inside, [text[next]], Quoted(text, next + 1, quote));
          inside := inside + [text[next]];
        }
        next := next + 1;
      }
      NeverClosed(text, next, quote, inside);
    }

    method ExtractUntilStop(stop: Stop) returns (matched: bool, token: string)
      requires current <= |text|
      modifies this`next
      ensures ExtractUntil(text, current, stop) == if matched then Scan(token, next) else NoClosingQuote
      ensures matched ==> next <= |text| + 1
    {
      hide ExtractUntil, Quoted, Stops, AddToScan;
      token := "";
      next := current;
      AddNothingToScan(ExtractUntil(text, next, stop));
      while next < |text| && !Stops(stop, text[next])
        invariant current <= next <= |text| + 1
        invariant ExtractUntil(text, current, stop) == AddToScan(token, ExtractUntil(text, next, stop))
      {
        ScanStep(text, next, stop, token);
        if text[next] == '\'' || text[next] == '"' {
          var closed, inside := ExtractQuoted(text[next]);
          if !closed { return false, token; }
          token := token + inside;
        } else {
          if text[next] == '\\' { next := next + 1; }
          if next < |text| {
            token := token + [text[next]];
          }
        }
        next := next + 1;
      }
      ScanEnd(text, next, stop, token);
      matched := true;
    }

    /** The brace branch of _extract_token. */
    method ExtractBracedToken() returns (r: Result)
      requires current < |text| && text[current] == '{' && queue == []
      modifies this
      ensures Matches(r, ExtractBraced(text, old(current) + 1))
    {
      hide ExtractUntil, Quoted, SkipSpaces;
      current := current + 1;
      var matched, token := ExtractUntilStop(AtSpaceOrBrace);
      if !matched { return Threw(UnterminatedQuote); }
      if !IsKeyword(token) {
        queue := ["(", token];
        current := next;
        if current > |text| { return Threw(OutOfBounds); }
        SkipWs();
        next := current;
        if current < |text| && text[current] != '}' {
          matched, token := ExtractUntilStop(AtBrace);
          if !matched { return Threw(UnterminatedQuote); }
          queue := queue + [",", token];
          token := "SERVICESTATUS";
        } else {
          token := "HOSTSTATUS";
        }
        queue := queue + [")"];
      }
      if next < |text| && text[next] == '}' {
        next := next + 1;
        return Got(token);
      }
      return Threw(UnclosedBrace);
    }

    /** r and the new state are what the outcome n of a call says. */
    ghost predicate Matches(r: Result, n: Next)
      reads this
    {
      match n
      case Fail(error) => r == Threw(error)
      case Next(token, next', queue') => r == Got(token) && next == next' && queue == queue'
    }

    method NextToken() returns (r: Result)
      requires Valid()
      modifies this
      ensures r.Got? ==> Valid()
      ensures if old(queue) == [] then Matches(r, ReadNext(text, old(next)))
              else r == Got(old(queue)[0]) && queue == old(queue)[1..] && next == old(next)
    {
      hide ExtractUntil, ExtractBraced, Quoted, SkipSpaces, IsDouble, IsSpecial;
      if queue != [] {
        var token := queue[0];
        queue := queue[1..];
        return Got(token);
      }
      current := next;
      if current > |text| { return Threw(OutOfBounds); }
      SkipWs();
      next := current;
      if current == |text| { return Got(""); }
      if IsSpecial(text[current]) {
        next := if current + 1 < |text| && IsDouble(text[current], text[current + 1])
        then current + 2 else current + 1;
        return Got(text[current..next]);
      }
      if text[current] == '{' {
        r := ExtractBracedToken();
      } else {
        var matched, token := ExtractUntilStop(AtDelimiter);
        r := if matched then Got(token) else Threw(UnterminatedQuote);
      }
    }

    /** The first loop of exp_parser::get_postfix. It ends on every text. */
    method ReadAll() returns (r: Tokens)
      requires Valid()
      modifies this
      ensures r == Tokenize(text, old(next), old(queue))
    {
      hide ReadNext;
      var tokens: seq<string> := [];
      while true
        invariant Valid()
        invariant AddTokens(tokens, Tokenize(text, next, queue)) == Tokenize(text, old(next), old(queue))
        decreases |text| + 1 - next, |queue|
      {
        ghost var more := Tokenize(text, next, queue);
        ReadNextAdvances(text, next);
        var t := NextToken();
        match t {
          case Threw(error) => return NoTokens(error);
          case Got(token) =>
            if token == "" {
              assert tokens + [] == tokens;
              return Tokens(tokens);
            }
            AddTokensTwice(tokens, token, Tokenize(text, next, queue));
            tokens := tokens + [token];
        }
      }
    }
  }

  datatype Result = Got(token: string) | Threw(error: Error)

  function AddTokens(prefix: seq<string>, ts: Tokens): Tokens {
    if ts.NoTokens? then ts else Tokens(prefix + ts.list)
  }

  lemma AddTokensTwice(prefix: seq<string>, t: string, ts: Tokens)
    ensures AddTokens(prefix, AddToken(t, ts)) == AddTokens(prefix + [t], ts)
  {
    if ts.Tokens? {
      assert prefix + ([t] + ts.list) == (prefix + [t]) + ts.list;
    }
  }

  /** A call that returns a token has read something. */
  lemma ReadNextAdvances(text: string, i: nat)
    ensures var r := ReadNext(text, i); r.Next? && r.token != "" ==> i < r.next
  {}

  /** One turn of the outer loop of _extract_until. */
  lemma ScanStep(text: string, i: nat, stop: Stop, token: string)
    requires i < |text| && !Stops(stop, text[i])
    ensures var r := AddToScan(token, ExtractUntil(text, i, stop));
            if text[i] == '\'' || text[i] == '"' then
              var body := Quoted(text, i + 1, text[i]);
              r == if body.NoQuote? then NoClosingQuote
                   else AddToScan(token + body.inside, ExtractUntil(text, body.end + 1, stop))
            else
              var j := if text[i] == '\\' then i + 1 else i;
              r == if j < |text| then AddToScan(token + [text[j]], ExtractUntil(text, j + 1, stop))
                   else AddToScan(token, ExtractUntil(text, j + 1, stop))
  {
    hide Stops, Quoted;
    if text[i] == '\'' || text[i] == '"' {
      var body := Quoted(text, i + 1, text[i]);
      if body.Body? {
        AddToScanTwice(token, body.inside, ExtractUntil(text, body.end + 1, stop));
      }
    } else {
      var j := if text[i] == '\\' then i + 1 else i;
      if j < |text| {
        AddToScanTwice(token, [text[j]], ExtractUntil(text, j + 1, stop));
      }
    }
  }

  lemma ScanEnd(text: string, i: nat, stop: Stop, token: string)
    requires i <= |text| + 1
    requires i < |text| ==> Stops(stop, text[i])
    ensures AddToScan(token, ExtractUntil(text, i, stop)) == Scan(token, i)
  {
    assert token + "" == token;
  }

  lemma AddNothingToBody(b: Body)
    ensures AddToBody("", b) == b
  {
    if b.Body? { assert "" + b.inside == b.inside; }
  }

  lemma AddToClosed(prefix: string, end: nat)
    ensures AddToBody(prefix, Body("", end)) == Body(prefix, end)
  {
    assert prefix + "" == prefix;
  }

  lemma NeverClosed(text: string, i: nat, quote: char, prefix: string)
    requires i >= |text|
    ensures AddToBody(prefix, Quoted(text, i, quote)) == NoQuote
  {}

  /** One turn of the inner loop of _extract_until. */
  lemma QuotedTurn(text: string, i: nat, quote: char)
    requires i < |text|
    ensures Quoted(text, i, quote) ==
            if text[i] == quote then Body("", i)
            else if quote == '"' && text[i] == '\\' then
              if i + 1 < |text| then AddToBody([text[i + 1]], Quoted(text, i + 2, quote)) else NoQuote
            else AddToBody([text[i]], Quoted(text, i + 1, quote))
    ensures Quoted(text, |text| + 1, quote) == NoQuote
    ensures forall prefix :: AddToBody(prefix, NoQuote) == NoQuote
  {}

  lemma AddToBodyTwice(p: string, q: string, b: Body)
    ensures AddToBody(p, AddToBody(q, b)) == AddToBody(p + q, b)
  {
    if b.Body? {
      assert p + (q + b.inside) == (p + q) + b.inside;
    }
  }

  lemma AddToScanTwice(p: string, q: string, s: Scan)
    ensures AddToScan(p, AddToScan(q, s)) == AddToScan(p + q, s)
  {
    if s.Scan? {
      assert p + (q + s.token) == (p + q) + s.token;
    }
  }

  lemma AddNothingToScan(s: Scan)
    ensures AddToScan("", s) == s
  {
    if s.Scan? {
      assert "" + s.token == s.token;
    }
  }

  // ------------------------------------------- when the text is read past

  /** What a token being read holds: whether a plain token, or the service of a brace, is
      still empty, and the first word of a brace, which may turn out to be a keyword. */
  datatype Part = PlainToken(empty: bool) | HostWord(word: string) | ServiceWord(empty: bool)

  /** Where one left-to-right scan of a text is: between tokens, inside a token, after its
      backslash, in a quoted part or after the backslash of one, between the two words of a
      brace, or past the point where the tokens end or an error is thrown. */
  datatype Mode =
    | Between
    | Inside(part: Part)
    | Escaping(part: Part)
    | InQuotes(quote: char, part: Part)
    | EscapingInQuotes(part: Part)
    | AfterHost
    | Over

  function Add(part: Part, s: string): Part {
    match part
    case PlainToken(empty) => PlainToken(empty && s == "")
    case HostWord(word) => HostWord(word + s)
    case ServiceWord(empty) => ServiceWord(empty && s == "")
  }

  function StopOf(part: Part): Stop {
    match part case PlainToken(_) => AtDelimiter case HostWord(_) => AtSpaceOrBrace case ServiceWord(_) => AtBrace
  }

  /** The character c ends a token. An empty token, or one that queues an empty word, is
      the last one; a keyword in braces needs its right brace at once. */
  function Leave(part: Part, c: char): Mode {
    match part
    case PlainToken(empty) => if empty then Over else Between
    case HostWord(word) =>
      if IsKeyword(word) then (if c == '}' then Between else Over)
      else if word == "" then Over
      else if c == '}' then Between
      else AfterHost
    case ServiceWord(empty) => if empty then Over else Between
  }

  /** One character of a token, or the one that ends it. */
  function Continue(part: Part, c: char): Mode {
    if Stops(StopOf(part), c) then Leave(part, c)
    else if c == '\'' || c == '"' then InQuotes(c, part)
    else if c == '\\' then Escaping(part)
    else Inside(Add(part, [c]))
  }

  function Turn(mode: Mode, c: char): Mode {
    match mode
    case Between =>
      if IsSpace(c) || IsSpecial(c) then Between
      else if c == '{' then Inside(HostWord(""))
      else Continue(PlainToken(true), c)
    case Inside(part) => Continue(part, c)
    case Escaping(part) => Inside(Add(part, [c]))
    case InQuotes(quote, part) =>
      if c == quote then Inside(part)
      else if quote == '"' && c == '\\' then EscapingInQuotes(part)
      else InQuotes(quote, Add(part, [c]))
    case EscapingInQuotes(part) => InQuotes('"', Add(part, [c]))
    case AfterHost =>
      if IsSpace(c) then AfterHost else if c == '}' then Between else Continue(ServiceWord(true), c)
    case Over => Over
  }

  /** The scan of a text from position i on. */
  function ScanFrom(text: string, i: nat, mode: Mode): Mode
    decreases |text| - i
  {
    if i >= |text| then mode else ScanFrom(text, i + 1, Turn(mode, text[i]))
  }

  /** The text ends just after a backslash that would escape the next character, outside
      quotes, of a plain token that is not empty or of the first word of a brace that is not
      a keyword. */
  predicate EndsOpen(mode: Mode) {
    mode.Escaping? && match mode.part
                      case PlainToken(empty) => !empty
                      case HostWord(word) => !IsKeyword(word)
                      case ServiceWord(_) => false
  }

  lemma AddTwice(part: Part, s: string, t: string)
    ensures Add(Add(part, s), t) == Add(part, s + t)
    ensures Add(part, "") == part
  {
    if part.HostWord? {
      assert part.word + s + t == part.word + (s + t);
      assert part.word + "" == part.word;
    }
  }

  lemma {:induction false} ScanQuoted(text: string, i: nat, quote: char, part: Part)
    requires quote == '\'' || quote == '"'
    ensures match Quoted(text, i, quote)
            case NoQuote => !EndsOpen(ScanFrom(text, i, InQuotes(quote, part)))
            case Body(inside, end) =>
              ScanFrom(text, i, InQuotes(quote, part)) == ScanFrom(text, end + 1, Inside(Add(part, inside)))
    decreases |text| - i
  {
    hide Continue, Add;
    if i < |text| {
      if text[i] == quote {
        AddTwice(part, "", "");
      } else if quote == '"' && text[i] == '\\' {
        if i + 1 < |text| {
          ScanQuoted(text, i + 2, quote, Add(part, [text[i + 1]]));
          var rest := Quoted(text, i + 2, quote);
          if rest.Body? { AddTwice(part, [text[i + 1]], rest.inside); }
        }
      } else {
        ScanQuoted(text, i + 1, quote, Add(part, [text[i]]));
        var rest := Quoted(text, i + 1, quote);
        if rest.Body? { AddTwice(part, [text[i]], rest.inside); }
      }
    }
  }

  /** The scan goes through a token as _extract_until does. */
  lemma {:induction false} ScanUntil(text: string, i: nat, part: Part)
    requires i <= |text|
    ensures match ExtractUntil(text, i, StopOf(part))
            case NoClosingQuote => !EndsOpen(ScanFrom(text, i, Inside(part)))
            case Scan(token, next) =>
              ScanFrom(text, i, Inside(part)) ==
              if next > |text| then Escaping(Add(part, token)) else ScanFrom(text, next, Inside(Add(part, token)))
    decreases |text| - i, 0
  {
    hide Quoted, Stops, Add, Leave, EndsOpen;
    AddTwice(part, "", "");
    if i < |text| && !Stops(StopOf(part), text[i]) {
      if text[i] == '\'' || text[i] == '"' {
        var body := Quoted(text, i + 1, text[i]);
        ScanQuoted(text, i + 1, text[i], part);
        if body.Body? { ScanMore(text, body.end + 1, part, body.inside); }
      } else if text[i] == '\\' {
        if i + 1 < |text| { ScanMore(text, i + 2, part, [text[i + 1]]); }
      } else {
        ScanMore(text, i + 1, part, [text[i]]);
      }
    }
  }

  lemma {:induction false} ScanMore(text: string, i: nat, part: Part, s: string)
    requires i <= |text|
    ensures StopOf(Add(part, s)) == StopOf(part)
    ensures match AddToScan(s, ExtractUntil(text, i, StopOf(part)))
            case NoClosingQuote => !EndsOpen(ScanFrom(text, i, Inside(Add(part, s))))
            case Scan(token, next) =>
              ScanFrom(text, i, Inside(Add(part, s))) ==
              if next > |text| then Escaping(Add(part, token)) else ScanFrom(text, next, Inside(Add(part, token)))
    decreases |text| - i, 1
  {
    hide ExtractUntil, ScanFrom, EndsOpen;
    assert StopOf(Add(part, s)) == StopOf(part);
    ScanUntil(text, i, Add(part, s));
    var r := ExtractUntil(text, i, StopOf(part));
    if r.Scan? { AddTwice(part, s, r.token); }
  }

  lemma {:induction false} ScanSpaces(text: string, i: nat, mode: Mode)
    requires i <= |text| && mode in {Between, AfterHost}
    ensures ScanFrom(text, i, mode) == ScanFrom(text, SkipSpaces(text, i), mode)
    decreases |text| - i
  {
    hide Continue;
    if i < |text| && IsSpace(text[i]) { ScanSpaces(text, i + 1, mode); }
  }

  /** What a call of `next` says about the rest of the scan: after the last token, or after
      an error inside the text, nothing is read past it; else the scan goes on between
      tokens where the call stopped. */
  ghost predicate Agrees(text: string, r: Next, end: Mode) {
    match r
    case Fail(error) => EndsOpen(end) <==> error == OutOfBounds
    case Next(token, next, queue) =>
      if token == "" || "" in queue then !EndsOpen(end)
      else EndsOpen(end) <==> next > |text| || EndsOpen(ScanFrom(text, next, Between))
  }

  lemma {:induction false} ScanOver(text: string, i: nat)
    ensures ScanFrom(text, i, Over) == Over
    decreases |text| - i
  {
    if i < |text| { ScanOver(text, i + 1); }
  }

  /** The character at which a token stopped. */
  lemma ScanStop(text: string, i: nat, part: Part)
    requires i < |text| && Stops(StopOf(part), text[i])
    ensures ScanFrom(text, i, Inside(part)) == ScanFrom(text, i + 1, Leave(part, text[i]))
  {
    hide Stops, Leave;
  }

  lemma AtTheEnd(text: string, mode: Mode)
    ensures ScanFrom(text, |text|, mode) == mode
  {}

  /** A plain token. */
  lemma ScanPlain(text: string, i: nat)
    requires i < |text| && !IsSpace(text[i]) && !IsSpecial(text[i]) && text[i] != '{'
    ensures Agrees(text, ReadNext(text, i), ScanFrom(text, i, Between))
  {
    hide ExtractUntil, SkipSpaces;
    assert ScanFrom(text, i, Between) == ScanFrom(text, i, Inside(PlainToken(true)));
    ScanUntil(text, i, PlainToken(true));
    var r := ExtractUntil(text, i, AtDelimiter);
    if r.Scan? && r.next <= |text| {
      if r.next < |text| {
        ScanStop(text, r.next, PlainToken(r.token == ""));
        ScanOver(text, r.next + 1);
        assert ScanFrom(text, r.next, Between) == ScanFrom(text, r.next + 1, Between) by {
          assert !Stops(AtDelimiter, text[r.next]) || IsSpace(text[r.next]) || IsSpecial(text[r.next]);
        }
      } else {
        AtTheEnd(text, Inside(PlainToken(r.token == "")));
        AtTheEnd(text, Between);
      }
    }
  }

  /** The second word of a brace, from its first character. */
  lemma ScanService(text: string, i: nat, word: string)
    requires i < |text| && !IsSpace(text[i]) && text[i] != '}' && word != ""
    ensures match ExtractUntil(text, i, AtBrace)
            case NoClosingQuote => !EndsOpen(ScanFrom(text, i, AfterHost))
            case Scan(service, end) =>
              Agrees(text, CloseBrace(text, "SERVICESTATUS", end, ["(", word, ",", service, ")"]),
                     ScanFrom(text, i, AfterHost))
  {
    hide ExtractUntil, SkipSpaces;
    assert ScanFrom(text, i, AfterHost) == ScanFrom(text, i, Inside(ServiceWord(true)));
    ScanUntil(text, i, ServiceWord(true));
    var r := ExtractUntil(text, i, AtBrace);
    if r.Scan? {
      var part := ServiceWord(r.token == "");
      if r.next < |text| {
        ScanStop(text, r.next, part);
        ScanOver(text, r.next + 1);
      } else if r.next == |text| {
        AtTheEnd(text, Inside(part));
      }
    }
  }

  /** A token in braces, from the character after the left one. */
  lemma ScanBraced(text: string, i: nat)
    requires i <= |text|
    ensures Agrees(text, ExtractBraced(text, i), ScanFrom(text, i, Inside(HostWord(""))))
  {
    hide ExtractUntil, SkipSpaces, IsKeyword, ScanFrom;
    ScanUntil(text, i, HostWord(""));
    var r := ExtractUntil(text, i, AtSpaceOrBrace);
    if r.Scan? {
      var word := r.token;
      assert Add(HostWord(""), word) == HostWord(word) by { assert "" + word == word; }
      assert !IsKeyword("") by { NoKeyword(); }
      if r.next < |text| {
        ScanStop(text, r.next, HostWord(word));
        ScanOver(text, r.next + 1);
        if !IsKeyword(word) && word != "" { ScanAfterHost(text, r.next, word); }
        if word == "" { EmptyHost(text, r.next); }
      } else if r.next == |text| {
        AtTheEnd(text, Inside(HostWord(word)));
      }
    }
  }

  lemma NoKeyword()
    ensures !IsKeyword("")
  {}

  /** What follows the first word of a brace that is not a keyword. */
  lemma ScanAfterHost(text: string, i: nat, word: string)
    requires i < |text| && (IsSpace(text[i]) || text[i] == '}') && word != "" && !IsKeyword(word)
    ensures var more := SkipSpaces(text, i);
            var end := ScanFrom(text, i + 1, Leave(HostWord(word), text[i]));
            if more < |text| && text[more] != '}' then
              match ExtractUntil(text, more, AtBrace)
              case NoClosingQuote => !EndsOpen(end)
              case Scan(service, next) =>
                Agrees(text, CloseBrace(text, "SERVICESTATUS", next, ["(", word, ",", service, ")"]), end)
            else Agrees(text, CloseBrace(text, "HOSTSTATUS", more, ["(", word, ")"]), end)
  {
    hide ExtractUntil, IsKeyword;
    var more := SkipSpaces(text, i);
    if text[i] != '}' {
      ScanSpaces(text, i, AfterHost);
      if more < |text| && text[more] != '}' {
        ScanService(text, more, word);
      } else if more == |text| {
        AtTheEnd(text, AfterHost);
      }
    }
  }

  /** A brace whose first word is empty ends the tokens, or throws. */
  lemma EmptyHost(text: string, i: nat)
    requires i < |text|
    ensures var more := SkipSpaces(text, i);
            if more < |text| && text[more] != '}' then
              match ExtractUntil(text, more, AtBrace)
              case NoClosingQuote => true
              case Scan(service, next) =>
                Agrees(text, CloseBrace(text, "SERVICESTATUS", next, ["(", "", ",", service, ")"]), Over)
            else Agrees(text, CloseBrace(text, "HOSTSTATUS", more, ["(", "", ")"]), Over)
  {
    hide ExtractUntil, SkipSpaces;
  }

  /** One call of `next`, on an empty queue. */
  lemma ScanNext(text: string, i: nat)
    requires i <= |text|
    ensures Agrees(text, ReadNext(text, i), ScanFrom(text, i, Between))
  {
    hide ExtractUntil, ExtractBraced, ScanFrom, IsSpecial, IsDouble, Agrees;
    ScanSpaces(text, i, Between);
    var j := SkipSpaces(text, i);
    ReadNextSkipsSpaces(text, i);
    if j == |text| {
      NothingLeft(text);
    } else if IsSpecial(text[j]) {
      ScanSpecial(text, j);
    } else if text[j] == '{' {
      ScanBraced(text, j + 1);
      BraceOpens(text, j);
    } else {
      ScanPlain(text, j);
    }
  }

  lemma ReadNextSkipsSpaces(text: string, i: nat)
    requires i <= |text|
    ensures ReadNext(text, i) == ReadNext(text, SkipSpaces(text, i))
  {
    hide ExtractUntil, ExtractBraced, IsSpecial, IsDouble;
  }

  lemma NothingLeft(text: string)
    ensures Agrees(text, ReadNext(text, |text|), ScanFrom(text, |text|, Between))
  {}

  lemma BraceOpens(text: string, i: nat)
    requires i < |text| && text[i] == '{'
    ensures ReadNext(text, i) == ExtractBraced(text, i + 1)
    ensures ScanFrom(text, i, Between) == ScanFrom(text, i + 1, Inside(HostWord("")))
  {
    hide ExtractBraced, ExtractUntil;
  }

  /** Operators, brackets and commas, of one or two characters. */
  lemma ScanSpecial(text: string, i: nat)
    requires i < |text| && IsSpecial(text[i]) && !IsSpace(text[i])
    ensures Agrees(text, ReadNext(text, i), ScanFrom(text, i, Between))
  {
    hide ExtractUntil, ExtractBraced, Continue;
    assert ScanFrom(text, i, Between) == ScanFrom(text, i + 1, Between);
    if i + 1 < |text| && IsDouble(text[i], text[i + 1]) {
      assert IsSpecial(text[i + 1]);
      assert ScanFrom(text, i + 1, Between) == ScanFrom(text, i + 2, Between);
    }
  }

  /** From any position: the tokenizer reads past its text if and only if no queued word is
      empty and the scan of what is left ends in an open backslash. */
  lemma {:induction false} ReadsInside(text: string, i: nat, queue: seq<string>)
    requires i <= |text| + 1
    ensures Tokenize(text, i, queue) == NoTokens(OutOfBounds) <==>
            "" !in queue && (i > |text| || EndsOpen(ScanFrom(text, i, Between)))
    decreases |text| + 1 - i, |queue|
  {
    hide ReadNext, ScanFrom, EndsOpen;
    if queue != [] {
      assert queue == [queue[0]] + queue[1..];
      ReadsInside(text, i, queue[1..]);
    } else if i <= |text| {
      ScanNext(text, i);
      ReadNextAdvances(text, i);
      var r := ReadNext(text, i);
      if r.Next? && r.token != "" { ReadsInside(text, r.next, r.queue); }
    } else {
      BeyondTheEnd(text, i);
    }
  }

  lemma BeyondTheEnd(text: string, i: nat)
    requires i > |text|
    ensures ReadNext(text, i) == Fail(OutOfBounds)
  {}

  /** The main result: the program reads past the end of its text if and only if one scan
      from left to right ends just after a backslash that escapes nothing, outside quotes and
      before any error or empty token, in a plain token that holds something already or in
      the first word of a brace that is not a keyword. */
  lemma ReadPastIff(text: string)
    ensures Tokenize(text, 0, []) == NoTokens(OutOfBounds) <==> EndsOpen(ScanFrom(text, 0, Between))
  {
    ReadsInside(text, 0, []);
  }

  /** The backslashes that end a text. */
  function FinalBackslashes(text: string): nat {
    if text == "" || text[|text| - 1] != '\\' then 0 else 1 + FinalBackslashes(text[..|text| - 1])
  }

  /** Where the scan of a prefix ends tells whether the backslashes before were paired. */
  lemma {:induction false} ScanPairs(text: string, i: nat)
    requires i <= |text|
    ensures var mode, n := ScanFrom(text[..i], 0, Between), FinalBackslashes(text[..i]);
            if mode.Escaping? || mode.EscapingInQuotes? then n % 2 == 1
            else if mode.InQuotes? then mode.quote == '\'' || (mode.quote == '"' && n % 2 == 0)
            else mode == Over || n % 2 == 0
    decreases i
  {
    hide Leave, Add, IsSpace, IsSpecial;
    LeavesTheToken();
    if i > 0 {
      ScanPairs(text, i - 1);
      assert text[..i][..i - 1] == text[..i - 1];
      ScanOneMore(text[..i], 0, Between);
    }
  }

  lemma LeavesTheToken()
    ensures forall part, c :: Leave(part, c) in {Between, AfterHost, Over}
    ensures forall stop :: !Stops(stop, '\\')
    ensures !IsSpace('\\') && !IsSpecial('\\')
  {
    hide IsKeyword;
  }

  lemma {:induction false} ScanOneMore(text: string, i: nat, mode: Mode)
    requires i < |text|
    ensures ScanFrom(text, i, mode) ==
            Turn(ScanFrom(text[..|text| - 1], i, mode), text[|text| - 1])
    decreases |text| - i
  {
    hide Turn;
    if i < |text| - 1 { ScanOneMore(text, i + 1, Turn(mode, text[i])); }
  }

  /** A text that does not end with an odd number of backslashes is never read past. */
  lemma PairsAreReadInside(text: string)
    requires FinalBackslashes(text) % 2 == 0
    ensures Tokenize(text, 0, []) != NoTokens(OutOfBounds)
  {
    hide ScanFrom, FinalBackslashes;
    ReadPastIff(text);
    ScanPairs(text, |text|);
    assert text[..|text|] == text;
  }

  /** Five short texts: `a\` is read past, and so is the brace with `h\`; `a\\`, a backslash
      alone, and one in quotes left open are not. */
  lemma BackslashIsReadPast()
    ensures Tokenize("a\\", 0, []) == NoTokens(OutOfBounds)
    ensures Tokenize("{h\\", 0, []) == NoTokens(OutOfBounds)
    ensures Tokenize("a\\\\", 0, []) != NoTokens(OutOfBounds)
    ensures Tokenize("\\", 0, []) != NoTokens(OutOfBounds)
    ensures Tokenize("\"a\\", 0, []) != NoTokens(OutOfBounds)
  {
    hide Tokenize, IsKeyword;
    ReadPastIff("a\\");
    assert ScanFrom("a\\", 1, Inside(PlainToken(false))) == Escaping(PlainToken(false));
    ReadPastIff("{h\\");
    NotAKeyword();
    assert "" + "h" == "h";
    assert ScanFrom("{h\\", 2, Inside(HostWord("h"))) == Escaping(HostWord("h"));
    assert ScanFrom("{h\\", 1, Inside(HostWord(""))) == Escaping(HostWord("h"));
    ReadPastIff("a\\\\");
    assert ScanFrom("a\\\\", 2, Escaping(PlainToken(false))) == Inside(PlainToken(false));
    assert ScanFrom("a\\\\", 1, Inside(PlainToken(false))) == Inside(PlainToken(false));
    ReadPastIff("\\");
    assert ScanFrom("\\", 0, Between) == Escaping(PlainToken(true));
    ReadPastIff("\"a\\");
    assert ScanFrom("\"a\\", 2, InQuotes('"', PlainToken(false))) == EscapingInQuotes(PlainToken(false));
    assert ScanFrom("\"a\\", 1, InQuotes('"', PlainToken(true))) == EscapingInQuotes(PlainToken(false));
  }

  lemma NotAKeyword()
    ensures !IsKeyword("h")
  {}
}

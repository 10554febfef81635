/** influxdb/src/line_protocol_query.cc: naming templates compiled into a list of getters,
    and run for every metric or status to write one line of the InfluxDB line protocol. */
module LineProtocol {
  import opened Options

  // ------------------------------------------------------------------ escaping

  /** Every special character gets a backslash in front of it. */
  function Escaped(s: string, special: set<char>): string {
    if s == "" then "" else (if s[0] in special then ['\\', s[0]] else [s[0]]) + Escaped(s[1..], special)
  }

  lemma {:induction false} EscapedConcat(s: string, t: string, special: set<char>)
    ensures Escaped(s + t, special) == Escaped(s, special) + Escaped(t, special)
  {
    if s == "" {
      assert s + t == t;
    } else {
      assert (s + t)[0] == s[0] && (s + t)[1..] == s[1..] + t;
      EscapedConcat(s[1..], t, special);
    }
  }

  /** Escaping one set of characters after another escapes both, as long as the second does
      not escape the backslashes of the first or the same characters again. */
  lemma {:induction false} EscapedTwice(s: string, first: set<char>, second: set<char>)
    requires '\\' !in second && first !! second
    ensures Escaped(Escaped(s, first), second) == Escaped(s, first + second)
  {
    if s != "" {
      var head := if s[0] in first then ['\\', s[0]] else [s[0]];
      EscapedConcat(head, Escaped(s[1..], first), second);
      EscapedTwice(s[1..], first, second);
      if s[0] in first {
        assert head[1..] == [s[0]] && [s[0]][1..] == "";
        assert Escaped(head, second) == ['\\'] + Escaped([s[0]], second);
      } else {
        assert head[1..] == "";
      }
    }
  }

  lemma {:induction false} NothingToEscape(s: string, special: set<char>)
    requires forall i :: 0 <= i < |s| ==> s[i] !in special
    ensures Escaped(s, special) == s
  {
    if s != "" { NothingToEscape(s[1..], special); }
  }

  /** The first position of c from i on, or the length of the string. */
  function Find(s: string, c: char, i: nat): (j: nat)
    requires i <= |s|
    ensures i <= j <= |s|
    ensures forall k :: i <= k < j ==> s[k] != c
    ensures j < |s| ==> s[j] == c
    decreases |s| - i
  {
    if i == |s| || s[i] == c then i else Find(s, c, i + 1)
  }

  /** Nothing but the character at k has to be escaped between k and l. */
  lemma EscapedUpTo(str: string, c: char, k: nat, l: nat)
    requires k < l <= |str| && str[k] == c && forall i :: k < i < l ==> str[i] != c
    ensures Escaped(str[..l], {c}) == Escaped(str[..k], {c}) + ['\\', c] + str[k + 1..l]
  {
    EscapedConcat(str[..k], [c], {c});
    EscapedConcat(str[..k + 1], str[k + 1..l], {c});
    NothingToEscape(str[k + 1..l], {c});
    assert str[..k + 1] == str[..k] + [c] && str[..l] == str[..k + 1] + str[k + 1..l];
    assert [c][1..] == "";
  }

  /** One replacement, up to the next character to replace. */
  lemma OneReplacement(str: string, c: char, k: nat, before: string, after: string, next: nat)
    requires k <= |str| && before == Escaped(str[..k], {c}) + str[k..]
    requires var pos := |Escaped(str[..k], {c})|;
             && pos < |before| && before[pos] == c
             && after == before[..pos] + ['\\', c] + before[pos + 1..]
             && pos + 2 <= next <= |after| && forall i :: pos + 2 <= i < next ==> after[i] != c
    ensures var l := k + 1 + (next - |Escaped(str[..k], {c})| - 2);
            l <= |str| && next == |Escaped(str[..l], {c})| && after == Escaped(str[..l], {c}) + str[l..]
  {
    hide Escaped;
    var front := Escaped(str[..k], {c});
    var l := k + 1 + (next - |front| - 2);
    assert before[..|front|] == front && before[|front| + 1..] == str[k + 1..];
    assert str[k] == before[|front|];
    forall i | k < i < l ensures str[i] != c { assert str[i] == after[|front| + 2 + (i - k - 1)]; }
    EscapedUpTo(str, c, k, l);
    assert str[k + 1..] == str[k + 1..l] + str[l..];
  }

  /** misc::string::replace of a character by a backslash and that character. */
  method Replace(str: string, c: char) returns (s: string)
    ensures s == Escaped(str, {c})
  {
    hide Escaped, Find;
    s := str;
    var pos := Find(s, c, 0);
    ghost var k := pos;
    NothingToEscape(str[..k], {c});
    assert s == Escaped(str[..k], {c}) + str[k..];
    while pos < |s|
      invariant 0 <= k <= |str| && pos == |Escaped(str[..k], {c})|
      invariant s == Escaped(str[..k], {c}) + str[k..]
      invariant pos < |s| ==> s[pos] == c
      decreases |str| - k
    {
      ghost var before := s;
      s := s[..pos] + ['\\', c] + s[pos + 1..];
      var next := Find(s, c, pos + 2);
      OneReplacement(str, c, k, before, s, next);
      pos, k := next, k + 1 + (next - pos - 2);
    }
    assert str[..k] == str;
  }

  datatype Escaper = NoEscape | Measurement | KeyEscape | ValueEscape

  const KEY := {',', '=', ' '}
  const MEASUREMENT := {',', ' '}

  function Escape(e: Escaper, s: string): string {
    match e
    case NoEscape => s
    case Measurement => Escaped(s, MEASUREMENT)
    case KeyEscape => Escaped(s, KEY)
    case ValueEscape => "\"" + Escaped(s, {'"'}) + "\""
  }

  /** escape_measurement, escape_key and escape_value: the replacements one after another. */
  method RunEscaper(e: Escaper, str: string) returns (s: string)
    ensures s == Escape(e, str)
  {
    s := str;
    match e {
      case NoEscape => {}
      case Measurement => {
        s := Replace(s, ',');
        s := Replace(s, ' ');
        EscapedTwice(str, {','}, {' '});
        assert {','} + {' '} == MEASUREMENT;
      }
      case KeyEscape => {
        s := Replace(s, ',');
        s := Replace(s, '=');
        s := Replace(s, ' ');
        EscapedTwice(str, {','}, {'='});
        EscapedTwice(str, {',', '='}, {' '});
        assert {','} + {'='} == {',', '='} && {',', '='} + {' '} == KEY;
      }
      case ValueEscape => {
        s := Replace(s, '"');
        s := "\"" + s + "\"";
      }
    }
  }

  /** Read escaped text up to the first special character without a backslash, as a reader
      of the line protocol does; the text read and what is left. */
  function Read(t: string, special: set<char>): (string, string) {
    if t == "" then ("", "")
    else if t[0] == '\\' && |t| > 1 && t[1] in special then
      var (text, rest) := Read(t[2..], special); ([t[1]] + text, rest)
    else if t[0] in special then ("", t)
    else
      var (text, rest) := Read(t[1..], special); ([t[0]] + text, rest)
  }

  lemma FrontCancels(s: string, text: string)
    requires s != ""
    ensures [s[0]] + text == s <==> text == s[1..]
  {
    assert s == [s[0]] + s[1..];
    assert ([s[0]] + text)[1..] == text;
  }

  lemma ReadSpecial(c: char, tail: string, special: set<char>)
    requires c in special
    ensures Read(['\\', c] + tail, special) == ([c] + Read(tail, special).0, Read(tail, special).1)
  {
    assert (['\\', c] + tail)[2..] == tail;
  }

  lemma ReadPlain(c: char, tail: string, special: set<char>)
    requires c !in special && (c == '\\' ==> tail == "" || tail[0] !in special)
    ensures Read([c] + tail, special) == ([c] + Read(tail, special).0, Read(tail, special).1)
  {
    assert ([c] + tail)[1..] == tail;
  }

  lemma EscapedFront(s: string, special: set<char>)
    requires s != "" && '\\' !in special
    ensures Escaped(s, special) == (if s[0] in special then ['\\', s[0]] else [s[0]]) + Escaped(s[1..], special)
    ensures Escaped(s, special)[0] !in special
  {}

  /** Escaped text that is followed by a separator is read back exactly if it does not end
      in a backslash: the escapers leave backslashes alone, so a last one would hide the
      separator. */
  lemma {:induction false} ReadBackIff(s: string, special: set<char>, rest: string)
    requires '\\' !in special && rest != "" && rest[0] in special
    ensures Read(Escaped(s, special) + rest, special) == (s, rest) <==> s == "" || s[|s| - 1] != '\\'
  {
    if s == "" {
      assert Escaped(s, special) + rest == rest;
    } else {
      ReadBackIff(s[1..], special, rest);
      ReadBackFront(s, special, rest);
    }
  }

  lemma ReadBackFront(s: string, special: set<char>, rest: string)
    requires '\\' !in special && rest != "" && rest[0] in special && s != ""
    ensures Read(Escaped(s, special) + rest, special) == (s, rest)
            <==> s != "\\" && Read(Escaped(s[1..], special) + rest, special) == (s[1..], rest)
  {
    hide Escaped, Read;
    var tail := Escaped(s[1..], special) + rest;
    EscapedFront(s, special);
    FrontCancels(s, Read(tail, special).0);
    if s[0] in special {
      assert Escaped(s, special) + rest == ['\\', s[0]] + tail;
      ReadSpecial(s[0], tail, special);
    } else {
      assert Escaped(s, special) + rest == [s[0]] + tail;
      if s == "\\" {
        HiddenSeparator(special, rest);
      } else {
        if |s| > 1 { EscapedFront(s[1..], special); }
        ReadPlain(s[0], tail, special);
      }
    }
  }

  lemma HiddenSeparator(special: set<char>, rest: string)
    requires '\\' !in special && rest != "" && rest[0] in special
    ensures Escaped("\\", special) == "\\"
    ensures Read("\\" + rest, special).0 != "\\"
    ensures Escaped("\\"[1..], special) + rest == rest
  {
    assert "\\"[1..] == "";
    assert Read("\\" + rest, special).0[0] == rest[0];
  }

  // ------------------------------------------------------------------ templates

  /** The pieces of a template: text, and what stands between two dollar signs. */
  datatype Piece = Text(text: string) | Macro(name: string)

  function Prepend<T>(front: seq<T>, o: Option<seq<T>>): Option<seq<T>> {
    match o case None => None case Some(v) => Some(front + v)
  }

  /** The pieces of a template from position i on; none if a macro is not closed. */
  function Split(s: string, i: nat): Option<seq<Piece>>
    requires i <= |s|
    decreases |s| - i
  {
    var open := Find(s, '$', i);
    if open == |s| then Some(TextBefore(s, i))
    else
      var close := Find(s, '$', open + 1);
      if close == |s| then None
      else Prepend(TextBefore(s, i) + [Macro(s[open + 1..close])], Split(s, close + 1))
  }

  function Spell(ps: seq<Piece>): string {
    if ps == [] then ""
    else (match ps[0] case Text(t) => t case Macro(n) => "$" + n + "$") + Spell(ps[1..])
  }

  function Dollars(s: string, i: nat): nat
    requires i <= |s|
    decreases |s| - i
  {
    if i == |s| then 0 else (if s[i] == '$' then 1 else 0) + Dollars(s, i + 1)
  }

  lemma {:induction false} NoDollars(s: string, i: nat, j: nat)
    requires i <= j <= |s| && forall k :: i <= k < j ==> s[k] != '$'
    ensures Dollars(s, i) == Dollars(s, j)
    decreases j - i
  {
    if i < j { NoDollars(s, i + 1, j); }
  }

  lemma SpellFront(p: Piece, ps: seq<Piece>)
    ensures Spell([p] + ps) == (if p.Text? then p.text else "$" + p.name + "$") + Spell(ps)
  {
    assert ([p] + ps)[1..] == ps;
  }

  /** The text before the first dollar sign. */
  function TextBefore(s: string, i: nat): seq<Piece>
    requires i <= |s|
  {
    var open := Find(s, '$', i);
    if i < open then [Text(s[i..open])] else []
  }

  lemma SplitOnce(s: string, i: nat)
    requires i <= |s|
    ensures var open := Find(s, '$', i);
            Split(s, i) ==
            if open == |s| then Some(TextBefore(s, i))
            else if Find(s, '$', open + 1) == |s| then None
            else Prepend(TextBefore(s, i) + [Macro(s[open + 1..Find(s, '$', open + 1)])],
                         Split(s, Find(s, '$', open + 1) + 1))
  {
    hide Find;
  }

  lemma DollarsOnce(s: string, i: nat)
    requires i < |s|
    ensures Dollars(s, i) == (if s[i] == '$' then 1 else 0) + Dollars(s, i + 1)
  {}

  /** A template splits exactly if its dollar signs come in pairs, and the pieces spell it. */
  lemma {:induction false} SplitSpells(s: string, i: nat)
    requires i <= |s|
    ensures Split(s, i).Some? <==> Dollars(s, i) % 2 == 0
    ensures Split(s, i).Some? ==> Spell(Split(s, i).value) == s[i..]
    decreases |s| - i
  {
    hide Find, Spell, Split, TextBefore, Dollars;
    var open := Find(s, '$', i);
    SplitOnce(s, i);
    NoDollars(s, i, open);
    if open == |s| {
      NoMoreDollars(s);
      SpellNothing();
      SpellText(s, i, []);
      assert TextBefore(s, i) + [] == TextBefore(s, i);
    } else {
      var close := Find(s, '$', open + 1);
      NoDollars(s, open + 1, close);
      DollarsOnce(s, open);
      if close == |s| {
        NoMoreDollars(s);
      } else {
        DollarsOnce(s, close);
        SplitSpells(s, close + 1);
        if Split(s, close + 1).Some? {
          var macro, after := Macro(s[open + 1..close]), Split(s, close + 1).value;
          SpellFront(macro, after);
          SpellText(s, i, [macro] + after);
          assert TextBefore(s, i) + [macro] + after == TextBefore(s, i) + ([macro] + after);
        }
      }
    }
  }

  lemma NoMoreDollars(s: string)
    ensures Dollars(s, |s|) == 0
  {}

  lemma SpellNothing()
    ensures Spell([]) == ""
  {}

  lemma SpellText(s: string, i: nat, after: seq<Piece>)
    requires i <= |s| && Spell(after) == s[Find(s, '$', i)..]
    ensures Spell(TextBefore(s, i) + after) == s[i..]
  {
    hide Find;
    var open := Find(s, '$', i);
    if i < open {
      SpellFront(Text(s[i..open]), after);
    } else {
      assert TextBefore(s, i) + after == after;
    }
  }

  // ---------------------------------------------------------- data and lookups

  /** Numbers are held as they are printed. */
  type Id = string

  datatype Data =
    | Metric(source: Id, metric: Id, name: string, host: Id, service: Id, value: string, time: string)
    | Status(source: Id, index: Id, state: string, time: string)

  /** What the macro cache knows. */
  datatype Cache = Cache(instances: map<Id, string>, hosts: map<Id, string>, services: map<(Id, Id), string>,
                         indexes: map<Id, (Id, Id)>, metrics: map<Id, Id>)

  datatype Kind = Unknown | ForMetric | ForStatus

  function KindOf(d: Data): Kind { if d.Metric? then ForMetric else ForStatus }

  function Get<K, V>(m: map<K, V>, k: K): Option<V> { if k in m then Some(m[k]) else None }

  datatype Getter =
    | GetString | GetDollarSign | GetMetricId | GetInstance | GetInstanceId | GetHost | GetHostId
    | GetService | GetServiceId | GetMetricName | GetIndexId | GetValue | GetTime

  /** The host and service an event is about. */
  function NodeOf(d: Data, c: Cache): Option<(Id, Id)> {
    match d
    case Metric(_, _, _, host, service, _, _) => Some((host, service))
    case Status(_, index, _, _) => Get(c.indexes, index)
  }

  /** What a getter writes; none if the cache does not know a name. */
  function Value(g: Getter, d: Data, c: Cache): Option<string>
    requires g != GetString && (g.GetMetricId? || g.GetMetricName? ==> d.Metric?)
  {
    match g
    case GetDollarSign => Some("$")
    case GetMetricId => Some(d.metric)
    case GetMetricName => Some(d.name)
    case GetInstance => Get(c.instances, d.source)
    case GetInstanceId => Some(d.source)
    case GetHost => (match NodeOf(d, c) case None => None case Some(n) => Get(c.hosts, n.0))
    case GetHostId => (match NodeOf(d, c) case None => None case Some(n) => Some(n.0))
    case GetService => (match NodeOf(d, c) case None => None case Some(n) => Get(c.services, n))
    case GetServiceId => (match NodeOf(d, c) case None => None case Some(n) => Some(n.1))
    case GetIndexId => if d.Status? then Some(d.index) else Get(c.metrics, d.metric)
    case GetValue => Some(if d.Metric? then d.value else d.state)
    case GetTime => Some(d.time)
  }

  /** What a macro compiles to: one getter, none if it is ignored, or an error. */
  function GetterOf(name: string, kind: Kind): Option<Option<Getter>> {
    if name == "" then Some(Some(GetDollarSign))
    else if name == "METRICID" then if kind == ForMetric then Some(Some(GetMetricId)) else None
    else if name == "INSTANCE" then Some(Some(GetInstance))
    else if name == "INSTANCEID" then Some(Some(GetInstanceId))
    else if name == "HOST" then Some(Some(GetHost))
    else if name == "HOSTID" then Some(Some(GetHostId))
    else if name == "SERVICE" then Some(Some(GetService))
    else if name == "SERVICEID" then Some(Some(GetServiceId))
    else if name == "METRIC" then if kind == ForMetric then Some(Some(GetMetricName)) else None
    else if name == "INDEXID" then Some(Some(GetIndexId))
    else if name == "VALUE" then Some(if kind == Unknown then None else Some(GetValue))
    else if name == "TIME" then Some(if kind == Unknown then None else Some(GetTime))
    else Some(None)
  }

  // --------------------------------------------------------- direct substitution

  predicate Compiles(p: Piece, kind: Kind) { p.Text? || GetterOf(p.name, kind).Some? }

  predicate AllCompile(ps: seq<Piece>, kind: Kind) { forall i :: 0 <= i < |ps| ==> Compiles(ps[i], kind) }

  /** The text that replaces one piece, before it is escaped; none if nothing is written
      for it. */
  datatype Replaced = Nothing | Written(text: string) | Missing

  function Replacement(p: Piece, d: Data, c: Cache): Replaced
    requires Compiles(p, KindOf(d))
  {
    match p
    case Text(t) => Written(t)
    case Macro(n) =>
      match GetterOf(n, KindOf(d)).value
      case None => Nothing
      case Some(g) => match Value(g, d, c) case None => Missing case Some(v) => Written(v)
  }

  /** A macro is refused exactly if it is one of the two that only metrics have, in a query
      for statuses. */
  lemma RefusedIff(name: string, kind: Kind)
    ensures Compiles(Macro(name), kind) <==> kind == ForMetric || name !in {"METRICID", "METRIC"}
  {}

  function Known(o: Option<string>): Replaced { match o case None => Missing case Some(text) => Written(text) }

  /** What is written for a macro; nothing for one that is refused. */
  function MacroText(name: string, d: Data, c: Cache): Replaced {
    if Compiles(Macro(name), KindOf(d)) then Replacement(Macro(name), d, c) else Nothing
  }

  /** The macros that write what the event itself holds. */
  lemma OwnMacros(d: Data, c: Cache)
    ensures MacroText("", d, c) == Written("$")
    ensures MacroText("INSTANCEID", d, c) == Written(d.source)
    ensures MacroText("VALUE", d, c) == Written(if d.Metric? then d.value else d.state)
    ensures MacroText("TIME", d, c) == Written(d.time)
  {
    assert |"INSTANCEID"| == 10 && |"VALUE"| == 5 && "VALUE"[0] == 'V' && |"TIME"| == 4 && "TIME"[0] == 'T';
  }

  lemma MetricMacros(d: Data, c: Cache)
    ensures d.Metric? ==> MacroText("METRIC", d, c) == Written(d.name) && MacroText("METRICID", d, c) == Written(d.metric)
    ensures MacroText("INDEXID", d, c) == if d.Status? then Written(d.index) else Known(Get(c.metrics, d.metric))
  {
    assert |"METRIC"| == 6 && |"METRICID"| == 8 && |"INDEXID"| == 7 && "INDEXID"[0] == 'I';
  }

  /** A metric names its host and service, and a status is about those of its index. */
  lemma NodeMacros(d: Data, c: Cache)
    ensures d.Metric? ==>
              MacroText("HOSTID", d, c) == Written(d.host) && MacroText("SERVICEID", d, c) == Written(d.service)
    ensures d.Status? && d.index in c.indexes ==>
              && MacroText("HOSTID", d, c) == Written(c.indexes[d.index].0)
              && MacroText("SERVICEID", d, c) == Written(c.indexes[d.index].1)
    ensures d.Status? && d.index !in c.indexes ==> MacroText("HOSTID", d, c) == MacroText("SERVICEID", d, c) == Missing
  {
    assert |"HOSTID"| == 6 && "HOSTID"[0] == 'H' && |"SERVICEID"| == 9;
  }

  /** The macros for names write the name that the cache knows for what the macros for ids
      write; without one, or without an id, a name is missing. */
  lemma NameMacros(d: Data, c: Cache)
    ensures var id := MacroText("INSTANCEID", d, c);
            id.Written? && MacroText("INSTANCE", d, c) == Known(Get(c.instances, id.text))
    ensures var id := MacroText("HOSTID", d, c);
            MacroText("HOST", d, c) == if id.Written? then Known(Get(c.hosts, id.text)) else Missing
    ensures var (h, s) := (MacroText("HOSTID", d, c), MacroText("SERVICEID", d, c));
            MacroText("SERVICE", d, c) ==
            if h.Written? && s.Written? then Known(Get(c.services, (h.text, s.text))) else Missing
  {
    hide MacroText, KindOf, Get;
    OwnMacros(d, c);
    NodeMacros(d, c);
    InstanceMacro(d, c);
    HostMacro(d, c);
    ServiceMacro(d, c);
  }

  lemma InstanceMacro(d: Data, c: Cache)
    ensures MacroText("INSTANCE", d, c) == Known(Get(c.instances, d.source))
  {
    assert |"INSTANCE"| == 8 && "INSTANCE"[0] == 'I';
  }

  lemma HostMacro(d: Data, c: Cache)
    ensures d.Metric? ==> MacroText("HOST", d, c) == Known(Get(c.hosts, d.host))
    ensures d.Status? ==>
              MacroText("HOST", d, c) == if d.index in c.indexes then Known(Get(c.hosts, c.indexes[d.index].0)) else Missing
  {
    assert |"HOST"| == 4 && "HOST"[0] == 'H';
  }

  lemma ServiceMacro(d: Data, c: Cache)
    ensures d.Metric? ==> MacroText("SERVICE", d, c) == Known(Get(c.services, (d.host, d.service)))
    ensures d.Status? ==>
              MacroText("SERVICE", d, c) == if d.index in c.indexes then Known(Get(c.services, c.indexes[d.index])) else Missing
  {
    assert |"SERVICE"| == 7 && "SERVICE"[0] == 'S';
  }

  /** Any other macro writes nothing. */
  lemma OtherMacros(name: string, d: Data, c: Cache)
    requires name !in {"", "METRIC", "METRICID", "INSTANCEID", "INSTANCE", "INDEXID", "HOST", "HOSTID", "SERVICE", "SERVICEID",
                       "VALUE", "TIME"}
    ensures MacroText(name, d, c) == Nothing
  {}

  function Append(a: Option<string>, b: Option<string>): Option<string> {
    if a.None? || b.None? then None else Some(a.value + b.value)
  }

  /** Substitute the macros of a template from left to right, escaping each piece. */
  function Substituted(ps: seq<Piece>, e: Escaper, d: Data, c: Cache): Option<string>
    requires AllCompile(ps, KindOf(d))
  {
    if ps == [] then Some("")
    else
      Append(match Replacement(ps[0], d, c)
             case Nothing => Some("")
             case Missing => None
             case Written(text) => Some(Escape(e, text)),
             Substituted(ps[1..], e, d, c))
  }

  /** How many pieces are written. */
  function WrittenPieces(ps: seq<Piece>, d: Data, c: Cache): nat
    requires AllCompile(ps, KindOf(d))
  {
    if ps == [] then 0
    else (if Replacement(ps[0], d, c).Written? then 1 else 0) + WrittenPieces(ps[1..], d, c)
  }

  /** Names and keys may be escaped piece by piece: it is the same as escaping the whole. */
  lemma {:induction false} PiecewiseIsWhole(ps: seq<Piece>, e: Escaper, d: Data, c: Cache)
    requires AllCompile(ps, KindOf(d)) && e != ValueEscape
    ensures Substituted(ps, e, d, c).Some? <==> Substituted(ps, NoEscape, d, c).Some?
    ensures Substituted(ps, e, d, c).Some? ==>
              Substituted(ps, e, d, c).value == Escape(e, Substituted(ps, NoEscape, d, c).value)
  {
    hide Replacement;
    if ps != [] {
      PiecewiseIsWhole(ps[1..], e, d, c);
      var r, more := Replacement(ps[0], d, c), Substituted(ps[1..], NoEscape, d, c);
      if more.Some? {
        assert "" + more.value == more.value && "" + Escape(e, more.value) == Escape(e, more.value);
        if r.Written? {
          EscapedConcat(r.text, more.value, MEASUREMENT);
          EscapedConcat(r.text, more.value, KEY);
        }
      }
    }
  }

  lemma {:induction false} ValueLength(ps: seq<Piece>, d: Data, c: Cache)
    requires AllCompile(ps, KindOf(d))
    ensures Substituted(ps, ValueEscape, d, c).Some? <==> Substituted(ps, NoEscape, d, c).Some?
    ensures Substituted(ps, NoEscape, d, c).Some? ==>
              |Substituted(ps, ValueEscape, d, c).value| ==
              |Escaped(Substituted(ps, NoEscape, d, c).value, {'"'})| + 2 * WrittenPieces(ps, d, c)
  {
    hide Replacement;
    if ps != [] {
      ValueLength(ps[1..], d, c);
      var r, more := Replacement(ps[0], d, c), Substituted(ps[1..], NoEscape, d, c);
      if more.Some? {
        assert "" + more.value == more.value;
        if r.Written? { EscapedConcat(r.text, more.value, {'"'}); }
      }
    }
  }

  lemma {:induction false} OnePieceValue(ps: seq<Piece>, d: Data, c: Cache)
    requires AllCompile(ps, KindOf(d)) && Substituted(ps, NoEscape, d, c).Some?
    ensures WrittenPieces(ps, d, c) == 0 ==>
              Substituted(ps, NoEscape, d, c) == Substituted(ps, ValueEscape, d, c) == Some("")
    ensures WrittenPieces(ps, d, c) == 1 ==>
              Substituted(ps, ValueEscape, d, c) == Some(Escape(ValueEscape, Substituted(ps, NoEscape, d, c).value))
  {
    hide Replacement, Escaped;
    if ps != [] {
      OnePieceValue(ps[1..], d, c);
      var r, more := Replacement(ps[0], d, c), Substituted(ps[1..], ValueEscape, d, c);
      if r.Written? {
        assert r.text + "" == r.text && Escape(ValueEscape, r.text) + "" == Escape(ValueEscape, r.text);
      } else if more.Some? {
        var plain := Substituted(ps[1..], NoEscape, d, c);
        assert "" + more.value == more.value && "" + plain.value == plain.value;
      }
    }
  }

  /** A string value gets its quotes piece by piece, so the field is one quoted string
      exactly if its template writes exactly one piece. */
  lemma ValueIsWholeIff(ps: seq<Piece>, d: Data, c: Cache)
    requires AllCompile(ps, KindOf(d)) && Substituted(ps, NoEscape, d, c).Some?
    ensures Substituted(ps, ValueEscape, d, c) == Some(Escape(ValueEscape, Substituted(ps, NoEscape, d, c).value))
            <==> WrittenPieces(ps, d, c) == 1
  {
    ValueLength(ps, d, c);
    OnePieceValue(ps, d, c);
  }

  // ---------------------------------------------------------------- compiled code

  /** A compiled getter with its escaper, and the string it will read if it reads one. */
  datatype Op = Op(getter: Getter, text: string, escaper: Escaper)

  function Getters(ops: seq<Op>): seq<(Getter, Escaper)> {
    if ops == [] then [] else Getters(ops[..|ops| - 1]) + [(ops[|ops| - 1].getter, ops[|ops| - 1].escaper)]
  }

  function Strings(ops: seq<Op>): seq<string> {
    if ops == [] then []
    else Strings(ops[..|ops| - 1]) + if ops[|ops| - 1].getter.GetString? then [ops[|ops| - 1].text] else []
  }

  predicate Fit(op: Op, kind: Kind) { op.getter.GetMetricId? || op.getter.GetMetricName? ==> kind == ForMetric }

  predicate AllFit(ops: seq<Op>, kind: Kind) { forall i :: 0 <= i < |ops| ==> Fit(ops[i], kind) }

  /** What a compiled getter writes. */
  function Result(op: Op, d: Data, c: Cache): Option<string>
    requires Fit(op, KindOf(d))
  {
    if op.getter.GetString? then Some(Escape(op.escaper, op.text))
    else match Value(op.getter, d, c) case None => None case Some(v) => Some(Escape(op.escaper, v))
  }

  function Output(ops: seq<Op>, d: Data, c: Cache): Option<string>
    requires AllFit(ops, KindOf(d))
  {
    if ops == [] then Some("")
    else Append(Output(ops[..|ops| - 1], d, c), Result(ops[|ops| - 1], d, c))
  }

  function GetterOps(g: Option<Getter>, e: Escaper): seq<Op> {
    match g case None => [] case Some(g) => [Op(g, "", e)]
  }

  function OpsOfPiece(p: Piece, kind: Kind, e: Escaper): seq<Op> {
    match p
    case Text(t) => [Op(GetString, t, e)]
    case Macro(n) => match GetterOf(n, kind) case None => [] case Some(g) => GetterOps(g, e)
  }

  function OpsOf(ps: seq<Piece>, kind: Kind, e: Escaper): seq<Op> {
    if ps == [] then [] else OpsOfPiece(ps[0], kind, e) + OpsOf(ps[1..], kind, e)
  }

  /** What _compile_scheme makes of a template from position i on; none where it throws. */
  function SchemeOps(s: string, i: nat, kind: Kind, e: Escaper): Option<seq<Op>>
    requires i <= |s|
  {
    match Split(s, i)
    case None => None
    case Some(ps) => if AllCompile(ps, kind) then Some(OpsOf(ps, kind, e)) else None
  }

  lemma GettersMore(ops: seq<Op>, op: Op)
    ensures Getters(ops + [op]) == Getters(ops) + [(op.getter, op.escaper)]
    ensures Strings(ops + [op]) == Strings(ops) + if op.getter.GetString? then [op.text] else []
  {
    assert (ops + [op])[..|ops|] == ops;
  }

  lemma OutputMore(ops: seq<Op>, op: Op, d: Data, c: Cache)
    requires AllFit(ops, KindOf(d)) && Fit(op, KindOf(d))
    ensures AllFit(ops + [op], KindOf(d))
    ensures Output(ops + [op], d, c) == Append(Output(ops, d, c), Result(op, d, c))
  {
    assert (ops + [op])[..|ops|] == ops;
  }

  lemma {:induction false} OutputConcat(a: seq<Op>, b: seq<Op>, d: Data, c: Cache)
    requires AllFit(a, KindOf(d)) && AllFit(b, KindOf(d))
    ensures AllFit(a + b, KindOf(d))
    ensures Output(a + b, d, c) == Append(Output(a, d, c), Output(b, d, c))
    decreases |b|
  {
    hide Result, Fit;
    if b == [] {
      assert a + b == a;
      if Output(a, d, c).Some? { assert Output(a, d, c).value + "" == Output(a, d, c).value; }
    } else {
      var front, last := b[..|b| - 1], b[|b| - 1];
      OutputConcat(a, front, d, c);
      OutputMore(a + front, last, d, c);
      assert a + b == a + front + [last];
      if Output(a, d, c).Some? && Output(front, d, c).Some? && Result(last, d, c).Some? {
        assert Output(a, d, c).value + Output(front, d, c).value + Result(last, d, c).value
            == Output(a, d, c).value + (Output(front, d, c).value + Result(last, d, c).value);
      }
    }
  }

  lemma PieceIsDirect(p: Piece, e: Escaper, d: Data, c: Cache)
    requires Compiles(p, KindOf(d))
    ensures AllFit(OpsOfPiece(p, KindOf(d), e), KindOf(d))
    ensures Output(OpsOfPiece(p, KindOf(d), e), d, c) ==
            match Replacement(p, d, c)
            case Nothing => Some("") case Missing => None case Written(text) => Some(Escape(e, text))
  {
    hide Escape, Value;
    var ops := OpsOfPiece(p, KindOf(d), e);
    if ops != [] {
      assert ops[..0] == [] && Output(ops[..0], d, c) == Some("");
      var r := Result(ops[0], d, c);
      if r.Some? { assert "" + r.value == r.value; }
    }
  }

  /** Running the getters of a template writes what substituting its macros directly, from
      left to right and with each piece escaped on its own, does. */
  lemma {:induction false} RunIsDirect(ps: seq<Piece>, e: Escaper, d: Data, c: Cache)
    requires AllCompile(ps, KindOf(d))
    ensures AllFit(OpsOf(ps, KindOf(d), e), KindOf(d))
    ensures Output(OpsOf(ps, KindOf(d), e), d, c) == Substituted(ps, e, d, c)
  {
    hide OpsOfPiece, Replacement, Fit, Compiles;
    if ps != [] {
      RunIsDirect(ps[1..], e, d, c);
      PieceIsDirect(ps[0], e, d, c);
      OutputConcat(OpsOfPiece(ps[0], KindOf(d), e), OpsOf(ps[1..], KindOf(d), e), d, c);
    }
  }

  lemma OpsOfFront(p: Piece, ps: seq<Piece>, kind: Kind, e: Escaper)
    ensures OpsOf([p] + ps, kind, e) == OpsOfPiece(p, kind, e) + OpsOf(ps, kind, e)
    ensures AllCompile([p] + ps, kind) <==> Compiles(p, kind) && AllCompile(ps, kind)
  {
    assert ([p] + ps)[1..] == ps && ([p] + ps)[0] == p;
    assert forall i :: 0 <= i < |ps| ==> ([p] + ps)[i + 1] == ps[i];
  }

  /** The text before the first dollar sign, compiled. */
  function TextOp(s: string, i: nat, e: Escaper): seq<Op>
    requires i <= |s|
  {
    var open := Find(s, '$', i);
    if i < open then [Op(GetString, s[i..open], e)] else []
  }

  /** What the loop of _compile_scheme does in one turn. */
  lemma SchemeOnce(s: string, i: nat, kind: Kind, e: Escaper)
    requires i <= |s|
    ensures var open := Find(s, '$', i);
            SchemeOps(s, i, kind, e) ==
            if open == |s| then Some(TextOp(s, i, e))
            else if Find(s, '$', open + 1) == |s| then None
            else
              var close := Find(s, '$', open + 1);
              match GetterOf(s[open + 1..close], kind)
              case None => None
              case Some(g) => Prepend(TextOp(s, i, e) + GetterOps(g, e), SchemeOps(s, close + 1, kind, e))
  {
    hide Find, GetterOf, GetterOps, AllCompile, Split, OpsOf, TextOp, TextBefore;
    SplitOnce(s, i);
    var open := Find(s, '$', i);
    if open == |s| {
      NoPieces(kind, e);
      TextOps(s, i, [], kind, e);
      assert TextOp(s, i, e) + [] == TextOp(s, i, e) && TextBefore(s, i) + [] == TextBefore(s, i);
    } else {
      var close := Find(s, '$', open + 1);
      if close < |s| && Split(s, close + 1).Some? {
        var macro, after := Macro(s[open + 1..close]), Split(s, close + 1).value;
        assert TextBefore(s, i) + [macro] + after == TextBefore(s, i) + ([macro] + after);
        MacroOps(TextOp(s, i, e), macro.name, after, kind, e);
        TextOps(s, i, [macro] + after, kind, e);
      }
    }
  }

  lemma MacroOps(text: seq<Op>, name: string, after: seq<Piece>, kind: Kind, e: Escaper)
    ensures AllCompile([Macro(name)] + after, kind) <==> GetterOf(name, kind).Some? && AllCompile(after, kind)
    ensures GetterOf(name, kind).Some? ==>
              text + OpsOf([Macro(name)] + after, kind, e) ==
              text + GetterOps(GetterOf(name, kind).value, e) + OpsOf(after, kind, e)
  {
    hide GetterOf, GetterOps, AllCompile, OpsOf;
    OpsOfFront(Macro(name), after, kind, e);
    if GetterOf(name, kind).Some? {
      var ops := GetterOps(GetterOf(name, kind).value, e);
      assert text + ops + OpsOf(after, kind, e) == text + (ops + OpsOf(after, kind, e));
    }
  }

  lemma NoPieces(kind: Kind, e: Escaper)
    ensures AllCompile([], kind) && OpsOf([], kind, e) == []
  {}

  lemma TextOps(s: string, i: nat, after: seq<Piece>, kind: Kind, e: Escaper)
    requires i <= |s|
    ensures AllCompile(TextBefore(s, i) + after, kind) <==> AllCompile(after, kind)
    ensures OpsOf(TextBefore(s, i) + after, kind, e) ==
            TextOp(s, i, e) + OpsOf(after, kind, e)
  {
    hide Find, AllCompile, OpsOf;
    var open := Find(s, '$', i);
    if i < open {
      OpsOfFront(Text(s[i..open]), after, kind, e);
    } else {
      assert TextBefore(s, i) + after == after && [] + OpsOf(after, kind, e) == OpsOf(after, kind, e);
    }
  }

  // ------------------------------------------------------------- lines of columns

  datatype ColumnType = StringColumn | NumberColumn

  datatype Column = Column(name: string, value: string, isFlag: bool, kind: ColumnType)

  /** A part of the line: a template with its escaper, or a separator. */
  datatype Segment = Template(scheme: string, escaper: Escaper) | Raw(text: string)

  function Tag(c: Column): seq<Segment> {
    if c.isFlag then [Raw(","), Template(c.name, KeyEscape), Raw("="), Template(c.value, KeyEscape)] else []
  }

  function Tags(columns: seq<Column>, n: nat): seq<Segment>
    requires n <= |columns|
  {
    if n == 0 then [] else Tags(columns, n - 1) + Tag(columns[n - 1])
  }

  predicate HasField(columns: seq<Column>, n: nat)
    requires n <= |columns|
  {
    exists i :: 0 <= i < n && !columns[i].isFlag
  }

  /** A field, with a comma in front of it unless it is the first one. */
  function Field(c: Column, first: bool): seq<Segment> {
    if c.isFlag then []
    else (if first then [] else [Raw(",")])
         + [Template(c.name, KeyEscape), Raw("="),
            Template(c.value, if c.kind == NumberColumn then NoEscape else ValueEscape)]
  }

  function Fields(columns: seq<Column>, n: nat): seq<Segment>
    requires n <= |columns|
  {
    if n == 0 then [] else Fields(columns, n - 1) + Field(columns[n - 1], !HasField(columns, n - 1))
  }

  /** <measurement>,<tag_set> <field_set> <timestamp>. */
  function LineOf(timeseries: string, columns: seq<Column>): seq<Segment> {
    [Template(timeseries, Measurement)] + Tags(columns, |columns|) + [Raw(" ")]
    + Fields(columns, |columns|) + (if HasField(columns, |columns|) then [Raw(" ")] else [])
    + [Template("$TIME$", NoEscape), Raw("\n")]
  }

  predicate SegmentCompiles(g: Segment, kind: Kind) {
    g.Raw? || SchemeOps(g.scheme, 0, kind, g.escaper).Some?
  }

  predicate LineCompiles(gs: seq<Segment>, kind: Kind) {
    forall i :: 0 <= i < |gs| ==> SegmentCompiles(gs[i], kind)
  }

  function SegmentOps(g: Segment, kind: Kind): seq<Op>
    requires SegmentCompiles(g, kind)
  {
    if g.Raw? then [Op(GetString, g.text, NoEscape)] else SchemeOps(g.scheme, 0, kind, g.escaper).value
  }

  function LineOps(gs: seq<Segment>, kind: Kind): seq<Op>
    requires LineCompiles(gs, kind)
  {
    if gs == [] then [] else LineOps(gs[..|gs| - 1], kind) + SegmentOps(gs[|gs| - 1], kind)
  }

  /** The line that the templates mean. */
  function DirectSegment(g: Segment, d: Data, c: Cache): Option<string>
    requires SegmentCompiles(g, KindOf(d))
  {
    if g.Raw? then Some(g.text) else Substituted(Split(g.scheme, 0).value, g.escaper, d, c)
  }

  function DirectLine(gs: seq<Segment>, d: Data, c: Cache): Option<string>
    requires LineCompiles(gs, KindOf(d))
  {
    if gs == [] then Some("")
    else Append(DirectLine(gs[..|gs| - 1], d, c), DirectSegment(gs[|gs| - 1], d, c))
  }

  lemma SegmentIsDirect(g: Segment, d: Data, c: Cache)
    requires SegmentCompiles(g, KindOf(d))
    ensures AllFit(SegmentOps(g, KindOf(d)), KindOf(d))
    ensures Output(SegmentOps(g, KindOf(d)), d, c) == DirectSegment(g, d, c)
  {
    hide Split, Substituted;
    if g.Raw? {
      var ops := SegmentOps(g, KindOf(d));
      assert ops[..0] == [] && "" + g.text == g.text;
    } else {
      RunIsDirect(Split(g.scheme, 0).value, g.escaper, d, c);
    }
  }

  /** A compiled line writes, for every metric or status and every cache, the text that its
      templates mean. */
  lemma {:induction false} LineIsDirect(gs: seq<Segment>, d: Data, c: Cache)
    requires LineCompiles(gs, KindOf(d))
    ensures AllFit(LineOps(gs, KindOf(d)), KindOf(d))
    ensures Output(LineOps(gs, KindOf(d)), d, c) == DirectLine(gs, d, c)
  {
    hide SegmentOps, SegmentCompiles, DirectSegment, Fit;
    if gs != [] {
      var front, last := gs[..|gs| - 1], gs[|gs| - 1];
      LineIsDirect(front, d, c);
      SegmentIsDirect(last, d, c);
      OutputConcat(LineOps(front, KindOf(d)), SegmentOps(last, KindOf(d)), d, c);
    }
  }

  // ------------------------------------------------------------------- the query

  lemma {:induction false} GetterAt(ops: seq<Op>, i: nat)
    requires i < |ops|
    ensures |Getters(ops)| == |ops| && Getters(ops)[i] == (ops[i].getter, ops[i].escaper)
  {
    if i < |ops| - 1 {
      GetterAt(ops[..|ops| - 1], i);
    } else if |ops| > 1 {
      GetterAt(ops[..|ops| - 1], 0);
    }
  }

  /** The n-th getter of a string reads the n-th compiled string. */
  lemma {:induction false} StringAt(ops: seq<Op>, i: nat)
    requires i < |ops| && ops[i].getter.GetString?
    ensures |Strings(ops[..i])| < |Strings(ops)|
    ensures Strings(ops)[|Strings(ops[..i])|] == ops[i].text
  {
    var front := ops[..|ops| - 1];
    if i < |ops| - 1 {
      StringAt(front, i);
      assert front[..i] == ops[..i];
    }
  }

  lemma {:induction false} TagsGrow(columns: seq<Column>, i: nat, n: nat)
    requires i <= n <= |columns|
    ensures Tags(columns, i) <= Tags(columns, n) && Fields(columns, i) <= Fields(columns, n)
    decreases n
  {
    hide Tag, Field, HasField;
    if i < n { TagsGrow(columns, i, n - 1); }
  }

  lemma LineOpsMore(gs: seq<Segment>, g: Segment, kind: Kind)
    requires LineCompiles(gs, kind) && SegmentCompiles(g, kind)
    ensures LineCompiles(gs + [g], kind) && LineOps(gs + [g], kind) == LineOps(gs, kind) + SegmentOps(g, kind)
  {
    hide SegmentCompiles, SegmentOps;
    assert (gs + [g])[..|gs|] == gs;
  }

  lemma GetterFits(name: string, kind: Kind)
    ensures GetterOf(name, kind).Some? && GetterOf(name, kind).value.Some? ==>
              var g := GetterOf(name, kind).value.value;
              g != GetString && forall e :: Fit(Op(g, "", e), kind)
  {}

  lemma OutputStops(ops: seq<Op>, i: nat, d: Data, c: Cache)
    requires AllFit(ops, KindOf(d)) && i <= |ops| && Output(ops[..i], d, c).None?
    ensures Output(ops, d, c).None?
  {
    OutputConcat(ops[..i], ops[i..], d, c);
    assert ops[..i] + ops[i..] == ops;
  }

  /** What generate_metric and generate_status give: the line, empty if a name is missing,
      or the exception for a query of the other kind. */
  datatype Generated = Line(text: string) | BadType

  class LineProtocolQuery {
    var getters: seq<(Getter, Escaper)>
    var strings: seq<string>
    var stringIndex: nat
    var kind: Kind
    ghost var ops: seq<Op>
    ghost var line: seq<Segment>

    ghost predicate Coded()
      reads this`getters, this`strings, this`kind, this`ops
    {
      getters == Getters(ops) && strings == Strings(ops) && AllFit(ops, kind)
    }

    /** The query holds the code of the line so far. */
    ghost predicate Valid()
      reads this`getters, this`strings, this`kind, this`ops, this`line
    {
      Coded() && LineCompiles(line, kind) && ops == LineOps(line, kind)
    }

    constructor ()
      ensures Valid() && kind == Unknown && line == []
    {
      getters, strings, stringIndex, kind, ops, line := [], [], 0, Unknown, [], [];
    }

    method Reset(k: Kind)
      modifies this
      ensures Valid() && kind == k && line == []
    {
      getters, strings, stringIndex, kind, ops, line := [], [], 0, k, [], [];
    }

    method AppendGetter(g: Getter, e: Escaper)
      requires Coded() && g != GetString && Fit(Op(g, "", e), kind)
      modifies this`getters, this`ops
      ensures Coded() && ops == old(ops) + [Op(g, "", e)]
    {
      hide Getters, Strings, Fit;
      GettersMore(ops, Op(g, "", e));
      assert strings + [] == strings;
      getters := getters + [(g, e)];
      ops := ops + [Op(g, "", e)];
    }

    method AppendString(text: string, e: Escaper)
      requires Coded()
      modifies this`getters, this`strings, this`ops
      ensures Coded() && ops == old(ops) + [Op(GetString, text, e)]
    {
      hide Getters, Strings;
      GettersMore(ops, Op(GetString, text, e));
      strings := strings + [text];
      getters := getters + [(GetString, e)];
      ops := ops + [Op(GetString, text, e)];
    }

    /** A separator of the line. */
    method AppendSeparator(text: string)
      requires Valid()
      modifies this`getters, this`strings, this`ops, this`line
      ensures Valid() && line == old(line) + [Raw(text)]
    {
      hide Getters, Strings, LineCompiles, LineOps, AllFit;
      AppendString(text, NoEscape);
      LineOpsMore(line, Raw(text), kind);
      line := line + [Raw(text)];
    }

    /** The choice of a getter for a macro, in _compile_scheme. */
    method CompileMacro(name: string, e: Escaper) returns (ok: bool)
      requires Coded()
      modifies this`getters, this`ops
      ensures Coded()
      ensures ok <==> GetterOf(name, kind).Some?
      ensures ok ==> ops == old(ops) + GetterOps(GetterOf(name, kind).value, e)
    {
      hide GetterOf, Coded, Fit;
      var found := GetterOf(name, kind);
      if found == None { return false; }
      GetterFits(name, kind);
      if found.value.Some? { AppendGetter(found.value.value, e); }
      ok := true;
    }

    /** _compile_scheme; false where it throws. */
    method CompileScheme(scheme: string, e: Escaper) returns (ok: bool)
      requires Valid()
      modifies this`getters, this`strings, this`ops, this`line
      ensures ok <==> SegmentCompiles(Template(scheme, e), kind)
      ensures ok ==> Valid() && line == old(line) + [Template(scheme, e)]
    {
      hide Find, GetterOf, Coded, LineCompiles, LineOps, SchemeOps, Prepend, GetterOps;
      var i := 0;
      ghost var done: seq<Op> := [];
      assert ops + [] == ops;
      NothingPrepended(SchemeOps(scheme, 0, kind, e));
      while Find(scheme, '$', i) < |scheme|
        invariant i <= |scheme| && Coded() && ops == old(ops) + done && line == old(line)
        invariant SchemeOps(scheme, 0, kind, e) == Prepend(done, SchemeOps(scheme, i, kind, e))
        decreases |scheme| - i
      {
        SchemeOnce(scheme, i, kind, e);
        var open := Find(scheme, '$', i);
        ghost var text := TextOp(scheme, i, e);
        if scheme[i..open] != "" { AppendString(scheme[i..open], e); }
        assert ops == old(ops) + (done + text);
        var close := Find(scheme, '$', open + 1);
        PrependValue(done, text);
        if close == |scheme| { return false; }
        ghost var found := GetterOf(scheme[open + 1..close], kind);
        ok := CompileMacro(scheme[open + 1..close], e);
        if !ok { return; }
        assert ops == old(ops) + (done + (text + GetterOps(found.value, e)));
        PrependTwice(done, text + GetterOps(found.value, e), SchemeOps(scheme, close + 1, kind, e));
        done := done + (text + GetterOps(found.value, e));
        i := close + 1;
      }
      SchemeOnce(scheme, i, kind, e);
      assert scheme[i..Find(scheme, '$', i)] == scheme[i..];
      ghost var text := TextOp(scheme, i, e);
      if scheme[i..] != "" { AppendString(scheme[i..], e); }
      PrependValue(done, text);
      assert ops == old(ops) + (done + text);
      LineOpsMore(line, Template(scheme, e), kind);
      line := line + [Template(scheme, e)];
      ok := true;
    }

    method CompileTag(c: Column) returns (ok: bool)
      requires Valid() && c.isFlag
      modifies this`getters, this`strings, this`ops, this`line
      ensures ok <==> LineCompiles(Tag(c), kind)
      ensures ok ==> Valid() && line == old(line) + Tag(c)
    {
      hide Valid, SegmentCompiles, Coded;
      Raws(",", "=", kind);
      assert Tag(c)[1] == Template(c.name, KeyEscape) && Tag(c)[3] == Template(c.value, KeyEscape);
      AppendSeparator(",");
      ok := CompileScheme(c.name, KeyEscape);
      if !ok { return; }
      AppendSeparator("=");
      ok := CompileScheme(c.value, KeyEscape);
      assert ok ==> line == old(line) + Tag(c);
    }

    /** The tags of the line. */
    method CompileTags(columns: seq<Column>) returns (ok: bool)
      requires Valid()
      modifies this`getters, this`strings, this`ops, this`line
      ensures ok <==> LineCompiles(Tags(columns, |columns|), kind)
      ensures ok ==> Valid() && line == old(line) + Tags(columns, |columns|)
    {
      hide Valid, LineCompiles, Coded, Tag, Tags;
      var i := 0;
      NothingCompiles(kind);
      NoColumns(columns);
      assert line + [] == line;
      while i < |columns|
        invariant 0 <= i <= |columns|
        invariant Valid() && line == old(line) + Tags(columns, i) && LineCompiles(Tags(columns, i), kind)
      {
        NextTag(columns, i, kind);
        if columns[i].isFlag {
          ok := CompileTag(columns[i]);
          if !ok { return; }
        } else {
          NoTag(columns[i], kind);
          assert line + [] == line;
        }
        assert old(line) + Tags(columns, i) + Tag(columns[i]) == old(line) + Tags(columns, i + 1);
        i := i + 1;
      }
      ok := true;
    }

    method CompileField(c: Column, first: bool) returns (ok: bool)
      requires Valid() && !c.isFlag
      modifies this`getters, this`strings, this`ops, this`line
      ensures ok <==> LineCompiles(Field(c, first), kind)
      ensures ok ==> Valid() && line == old(line) + Field(c, first)
    {
      hide Valid, SegmentCompiles, Coded;
      Raws(",", "=", kind);
      var e := if c.kind == NumberColumn then NoEscape else ValueEscape;
      ghost var n := |Field(c, first)|;
      assert Field(c, first)[n - 3] == Template(c.name, KeyEscape) && Field(c, first)[n - 1] == Template(c.value, e);
      if !first { AppendSeparator(","); }
      ok := CompileScheme(c.name, KeyEscape);
      if !ok { return; }
      AppendSeparator("=");
      ok := CompileScheme(c.value, e);
      assert ok ==> line == old(line) + Field(c, first);
    }

    /** The fields of the line, and whether there are any. */
    method CompileFields(columns: seq<Column>) returns (ok: bool, first: bool)
      requires Valid()
      modifies this`getters, this`strings, this`ops, this`line
      ensures ok <==> LineCompiles(Fields(columns, |columns|), kind)
      ensures ok ==> Valid() && line == old(line) + Fields(columns, |columns|)
      ensures ok ==> first == !HasField(columns, |columns|)
    {
      hide Valid, LineCompiles, Coded, Field, Fields, HasField;
      var i := 0;
      first := true;
      NothingCompiles(kind);
      NoColumns(columns);
      assert line + [] == line;
      while i < |columns|
        invariant 0 <= i <= |columns|
        invariant first == !HasField(columns, i)
        invariant Valid() && line == old(line) + Fields(columns, i) && LineCompiles(Fields(columns, i), kind)
      {
        NextField(columns, i, kind);
        if !columns[i].isFlag {
          ok := CompileField(columns[i], first);
          if !ok { return; }
          first := false;
        } else {
          NoTag(columns[i], kind);
          assert line + [] == line;
        }
        assert old(line) + Fields(columns, i) + Field(columns[i], !HasField(columns, i)) == old(line) + Fields(columns, i + 1);
        i := i + 1;
      }
      ok := true;
    }

    /** The constructor with a template; false where it throws: a macro that is not closed,
        or a metric's macro in a line for statuses. */
    method Compile(timeseries: string, columns: seq<Column>, k: Kind) returns (ok: bool)
      modifies this
      ensures ok <==> LineCompiles(LineOf(timeseries, columns), k)
      ensures ok ==> Valid() && kind == k && line == LineOf(timeseries, columns)
    {
      hide SegmentCompiles, LineCompiles, Valid, Coded, Tags, Fields, HasField;
      Reset(k);
      ghost var tags, fields := Tags(columns, |columns|), Fields(columns, |columns|);
      LineInParts(timeseries, columns, k);
      ok := CompileScheme(timeseries, Measurement);
      if !ok { return; }
      ok := CompileTags(columns);
      if !ok { return; }
      AppendSeparator(" ");
      var first;
      ok, first := CompileFields(columns);
      if !ok { return; }
      if !first { AppendSeparator(" "); }
      ok := CompileScheme("$TIME$", NoEscape);
      if !ok { return; }
      AppendSeparator("\n");
      assert line == LineOf(timeseries, columns);
    }

    /** generate_metric and generate_status: the compiled line writes what its templates
        mean, however often the query was run before. */
    method Generate(d: Data, c: Cache) returns (r: Generated)
      requires Valid()
      modifies this`stringIndex
      ensures KindOf(d) != kind ==> r == BadType
      ensures KindOf(d) == kind ==>
                r == Line(match DirectLine(line, d, c) case None => "" case Some(text) => text)
    {
      hide Getters, Strings, Output, DirectLine, LineCompiles, LineOps, Result, Fit, Value;
      if kind != KindOf(d) { return BadType; }
      LineIsDirect(line, d, c);
      stringIndex := 0;
      var out := "";
      var i := 0;
      NothingRead(ops, d, c);
      if ops != [] { GetterAt(ops, 0); }
      while i < |getters|
        invariant 0 <= i <= |getters| == |ops| && Valid()
        invariant stringIndex == |Strings(ops[..i])|
        invariant Output(ops[..i], d, c) == Some(out)
      {
        GetterAt(ops, i);
        assert ops[..i + 1] == ops[..i] + [ops[i]];
        GettersMore(ops[..i], ops[i]);
        OutputMore(ops[..i], ops[i], d, c);
        if ops[i].getter.GetString? { StringAt(ops, i); }
        ResultOf(ops[i], d, c);
        var written := RunGetter(getters[i].0, d, c);
        if written == None {
          OutputStops(ops, i + 1, d, c);
          return Line("");
        }
        var escaped := RunEscaper(getters[i].1, written.value);
        out := out + escaped;
        i := i + 1;
      }
      assert ops[..i] == ops;
      r := Line(out);
    }

    /** Run one getter; that of a string reads the next one. */
    method RunGetter(g: Getter, d: Data, c: Cache) returns (r: Option<string>)
      requires g.GetString? ==> stringIndex < |strings|
      requires Fit(Op(g, "", NoEscape), KindOf(d))
      modifies this`stringIndex
      ensures g.GetString? ==> r == Some(strings[old(stringIndex)]) && stringIndex == old(stringIndex) + 1
      ensures !g.GetString? ==> r == Value(g, d, c) && stringIndex == old(stringIndex)
    {
      if g.GetString? {
        r := Some(strings[stringIndex]);
        stringIndex := stringIndex + 1;
      } else {
        r := Value(g, d, c);
      }
    }
  }

  lemma NothingPrepended(o: Option<seq<Op>>)
    ensures o == Prepend([], o)
  {
    if o.Some? { assert [] + o.value == o.value; }
  }

  lemma PrependValue(a: seq<Op>, b: seq<Op>)
    ensures Prepend(a, Some(b)) == Some(a + b) && Prepend(a, None) == None
  {}

  lemma PrependTwice(a: seq<Op>, b: seq<Op>, o: Option<seq<Op>>)
    ensures Prepend(a, Prepend(b, o)) == Prepend(a + b, o)
  {
    if o.Some? { assert a + (b + o.value) == a + b + o.value; }
  }

  lemma Raws(a: string, b: string, kind: Kind)
    ensures SegmentCompiles(Raw(a), kind) && SegmentCompiles(Raw(b), kind)
  {}

  lemma NothingCompiles(kind: Kind)
    ensures LineCompiles([], kind)
  {}

  lemma NoTag(c: Column, kind: Kind)
    ensures !c.isFlag ==> Tag(c) == [] && LineCompiles(Tag(c), kind)
    ensures c.isFlag ==> forall first :: Field(c, first) == [] && LineCompiles(Field(c, first), kind)
  {}

  lemma BothCompile(a: seq<Segment>, b: seq<Segment>, kind: Kind)
    ensures LineCompiles(a + b, kind) <==> LineCompiles(a, kind) && LineCompiles(b, kind)
  {
    hide SegmentCompiles;
    assert forall i :: 0 <= i < |a| ==> (a + b)[i] == a[i];
    assert forall i :: 0 <= i < |b| ==> (a + b)[|a| + i] == b[i];
  }

  /** A part that does not compile spoils every line it is in. */
  lemma PartsCompile(a: seq<Segment>, b: seq<Segment>, all: seq<Segment>, kind: Kind)
    requires a + b <= all
    ensures LineCompiles(a + b, kind) <==> LineCompiles(a, kind) && LineCompiles(b, kind)
    ensures LineCompiles(all, kind) ==> LineCompiles(b, kind)
  {
    hide LineCompiles;
    BothCompile(a, b, kind);
    BothCompile(a + b, all[|a + b|..], kind);
    assert all == a + b + all[|a + b|..];
  }

  lemma NoColumns(columns: seq<Column>)
    ensures Tags(columns, 0) == [] && Fields(columns, 0) == [] && !HasField(columns, 0)
  {}

  lemma NextTag(columns: seq<Column>, i: nat, kind: Kind)
    requires i < |columns|
    ensures Tags(columns, i + 1) == Tags(columns, i) + Tag(columns[i])
    ensures LineCompiles(Tags(columns, i + 1), kind) <==> LineCompiles(Tags(columns, i), kind) && LineCompiles(Tag(columns[i]), kind)
    ensures LineCompiles(Tags(columns, |columns|), kind) ==> LineCompiles(Tag(columns[i]), kind)
  {
    hide LineCompiles, Tag;
    TagsGrow(columns, i + 1, |columns|);
    PartsCompile(Tags(columns, i), Tag(columns[i]), Tags(columns, |columns|), kind);
  }

  lemma NextField(columns: seq<Column>, i: nat, kind: Kind)
    requires i < |columns|
    ensures HasField(columns, i + 1) == (HasField(columns, i) || !columns[i].isFlag)
    ensures var field := Field(columns[i], !HasField(columns, i));
            && Fields(columns, i + 1) == Fields(columns, i) + field
            && (LineCompiles(Fields(columns, i + 1), kind) <==>
                  LineCompiles(Fields(columns, i), kind) && LineCompiles(field, kind))
            && (LineCompiles(Fields(columns, |columns|), kind) ==> LineCompiles(field, kind))
  {
    hide LineCompiles, Field;
    TagsGrow(columns, i + 1, |columns|);
    PartsCompile(Fields(columns, i), Field(columns[i], !HasField(columns, i)), Fields(columns, |columns|), kind);
  }

  lemma OneCompiles(g: Segment, kind: Kind)
    ensures LineCompiles([g], kind) <==> SegmentCompiles(g, kind)
  {
    hide SegmentCompiles;
    assert [g][0] == g;
  }

  /** A line compiles exactly if all its parts do. */
  lemma LineInParts(timeseries: string, columns: seq<Column>, kind: Kind)
    ensures LineCompiles(LineOf(timeseries, columns), kind) <==>
              && SegmentCompiles(Template(timeseries, Measurement), kind)
              && LineCompiles(Tags(columns, |columns|), kind)
              && LineCompiles(Fields(columns, |columns|), kind)
              && SegmentCompiles(Template("$TIME$", NoEscape), kind)
  {
    hide SegmentCompiles, LineCompiles, Tags, Fields, HasField;
    var tags, fields := Tags(columns, |columns|), Fields(columns, |columns|);
    var space, line1 := if HasField(columns, |columns|) then [Raw(" ")] else [], [Template(timeseries, Measurement)];
    Raws(" ", "\n", kind);
    NothingCompiles(kind);
    OneCompiles(Raw(" "), kind);
    OneCompiles(Raw("\n"), kind);
    OneCompiles(Template(timeseries, Measurement), kind);
    OneCompiles(Template("$TIME$", NoEscape), kind);
    BothCompile(line1, tags, kind);
    BothCompile(line1 + tags, [Raw(" ")], kind);
    BothCompile(line1 + tags + [Raw(" ")], fields, kind);
    BothCompile(line1 + tags + [Raw(" ")] + fields, space, kind);
    BothCompile([Template("$TIME$", NoEscape)], [Raw("\n")], kind);
    BothCompile(line1 + tags + [Raw(" ")] + fields + space, [Template("$TIME$", NoEscape)] + [Raw("\n")], kind);
    assert LineOf(timeseries, columns) ==
           line1 + tags + [Raw(" ")] + fields + space + ([Template("$TIME$", NoEscape)] + [Raw("\n")]);
  }

  lemma NothingRead(ops: seq<Op>, d: Data, c: Cache)
    requires AllFit(ops, KindOf(d))
    ensures Strings(ops[..0]) == [] && Output(ops[..0], d, c) == Some("") && |Getters(ops)| == |ops|
  {
    if ops != [] { GetterAt(ops, 0); }
  }

  lemma ResultOf(op: Op, d: Data, c: Cache)
    requires Fit(op, KindOf(d))
    ensures Fit(Op(op.getter, "", NoEscape), KindOf(d))
    ensures op.getter.GetString? ==> Result(op, d, c) == Some(Escape(op.escaper, op.text))
    ensures !op.getter.GetString? ==>
              Result(op, d, c) == match Value(op.getter, d, c) case None => None case Some(v) => Some(Escape(op.escaper, v))
  {}
}

# Centreon Broker: verified models of its stateful cores

A Dafny 4.11 model of the parts of Centreon Broker that keep state incrementally or follow
a protocol between threads or across crashes, with proofs of what they promise.

`dafny verify dfyconfig.toml` checks the whole project. Each file is one module:

| file | what it models |
|---|---|
| ExpTokens, ExpTokenizer, ExpParser, ExpPrinter, ExpText | the boolean expression language of the BAM module: words, tokenizer, shunting-yard parser, and a printer that is its inverse |
| ExpBuilder, ExpGraph | the builder, as a function to trees and as the object that allocates and links computation nodes |
| ExpServed | what each word of the language means, from its text to the value served |
| Computable | the computation graph: nodes with cached values and the two-phase propagation of updates |
| BusinessActivity, FiniteSums | running totals, states, inherited downtimes and the event log of a business activity (BA) |
| KpiService | the event history of a service KPI |
| MetaService | incremental aggregation of metrics |
| Availability | daily availabilities: clipping, counting and the day loop |
| Correlation | the correlation graph with its issues, downtimes and parenting records |
| CommitBarrier | the commit barrier over several SQL connections |
| LuaStream | the acknowledgement protocol between the broker and the Lua thread |
| PersistentCache, MacroCache | the transactional cache file under crashes, and the Lua cache saved to it and replayed from it |
| DowntimeScheduler | the queues of downtimes waiting to start and to end |
| LineProtocol | compiled naming templates of the InfluxDB output |
| Options | a value that may be missing |

Objects of the program that update their fields are classes here, and each of their methods
is proved against a specification: a function of the old state, or the property it
establishes. The two-thread protocols are state machines whose steps are the single accesses
to shared data, and their theorems hold in every interleaving. Doubles are real numbers,
with a value of its own for "not a number" where the code can produce it. Clocks, the
database's rows, query outcomes and what a Lua script answers are parameters.

## Where the code does not do what one expects

The model follows the code. Where a property one would expect fails, there is a lemma that
says exactly when it holds, and mostly a smallest example:

- After a comma the parser takes `-` and `NOT` for binary operators, so `MAX(a, -b)` is
  misread (`ExpPrinter.ParsedIffPlain`).
- The builder ignores the unary minus (`ExpGraph.MinusIsDropped`).
- A text is read past its end if and only if it ends just after a backslash that escapes
  nothing, outside quotes and before any error or empty token, in a plain token that holds
  something already or in the first word of a brace that is not a keyword
  (`ExpTokenizer.ReadPastIff`).
- A comma is accepted in any parenthesis inside an open call, not only directly in that of
  the call (`ExpParser.AcceptedIffBalanced`).
- The test for the right operand's soft value is inverted, and an operator with one node as
  both operands updates its left cache only (`Computable.TakenExactly`).
- Outside impact mode a BA's levels sink, and its totals of acknowledgements and downtimes
  grow, with every update or removal (`BusinessActivity.Ba.Unapply`); in best mode it shows OK until the first update
  (`BusinessActivity.FirstStateIsBestIff`); and a BA that inherited a downtime stays in
  downtime when the inheritance ends (`BusinessActivity.DowntimeOutlivesInheritance`). That no
  downtime of a BA ends while an update propagates is what `Computable.Node.PropagateUpdate`
  rests on, for BAs that read the downtimes of their KPIs live (`Computable.UnseenStays`).
- A meta-service can send a stale value in its service status: when exactly, after a metric
  was added or removed or the computation changed, is `MetaService.ReportAfterChange`. The
  comment there says that one is sent every minute, but the elapsed time is taken backwards, so after
  the first one a status is sent on a change of state only (`MetaService.DueOnChangeOnly`).
- An acknowledgement event marks a service KPI as acknowledged when its deletion time is
  not -1, which tells that it stands only if that time is 0
  (`KpiService.KpiService.AcknowledgementUpdate`); the correlation node takes the same field
  the other way round.
- A correlation link made while issues are open is not told to anybody
  (`Correlation.AddParent`).
- A flush that is asked for while the Lua script is flushing is forgotten
  (`LuaStream.RequestIsLost`).
- `mysql::commit` never returns if there are no connections
  (`CommitBarrier.CommitGoesOnIff`).
- A `.new` file left by a crash is appended to by the next save, so the cache file may come
  to hold more than was saved (`PersistentCache.AtomicIffNothingLeftOver`). The cache
  rebuilt from it is right all the same if and only if nothing of what was left outlives the
  new cache (`MacroCache.OldOrNewIff`); a relation left there is doubled by a save of the
  same cache (`MacroCache.RelationIsDoubled`).
- A saved cache is rebuilt only because instances are saved before hosts
  (`MacroCache.RebuiltIff`).
- A downtime that is scheduled twice makes the scheduler write a downtime nobody scheduled
  (`DowntimeScheduler.AddKeepsSoundIff`).
- The line protocol escapers leave backslashes alone, so a key ending with one swallows its
  separator (`LineProtocol.ReadBackIff`); a string field whose template has several pieces
  is quoted several times, and one without pieces not at all (`LineProtocol.ValueIsWholeIff`).

## Model

| member | source | states |
|---|---|---|
| ExpTokens.ClassifySpell | bam/src/exp_parser.cc:237-257 | Every operator, function, bracket, comma and operand word is taken by the parser for what it spells; the word `-` is one operator, prefix or not. |
| ExpTokenizer.Tokenizer.SkipWs | bam/src/exp_tokenizer.cc:296-301 | The position moves to the first character that is no white space. |
| ExpTokenizer.Tokenizer.ExtractQuoted | bam/src/exp_tokenizer.cc:191-211 | The inner loop reads the quoted string that the specification reads, escapes only in double quotes, or finds no closing quote. |
| ExpTokenizer.Tokenizer.ExtractUntilStop | bam/src/exp_tokenizer.cc:184-224 | The loop reads the token that the position-based specification reads, or fails for a quote left open. |
| ExpTokenizer.Tokenizer.ExtractBracedToken | bam/src/exp_tokenizer.cc:129-168 | A brace token yields its keyword, or a status function with its queued arguments, or the error the code throws. |
| ExpTokenizer.Tokenizer.NextToken | bam/src/exp_tokenizer.cc:68-109 | Each call returns the queued token or the next one of the text, and leaves the position behind it. |
| ExpTokenizer.Tokenizer.ReadAll | bam/src/exp_parser.cc:94-103 | The collecting loop ends on every text, and its tokens are those of the specification. |
| ExpTokenizer.ReadsInside | bam/src/exp_tokenizer.cc:68-224 | From any position with any queue: the tokenizer reads past its text if and only if no queued word is empty and the scan of what is left ends in an open backslash. |
| ExpTokenizer.ReadPastIff | bam/src/exp_tokenizer.cc:68-224 | For every text: it is read past if and only if one left-to-right scan ends just after a backslash that escapes nothing, outside quotes and before any error or empty token, in a non-empty plain token or in the first, non-keyword word of a brace. |
| ExpTokenizer.ScanUntil | bam/src/exp_tokenizer.cc:184-224 | The character-by-character scan goes through a token as the extracting loop does. |
| ExpTokenizer.ScanPairs | bam/src/exp_tokenizer.cc:189-216 | Outside quotes a scan waits for an escaped character exactly after an odd number of backslashes. |
| ExpTokenizer.PairsAreReadInside | bam/src/exp_tokenizer.cc:213-220 | A text that does not end with an odd number of backslashes is never read past: its tokens are read, or a quote or brace error is thrown. |
| ExpTokenizer.BackslashIsReadPast | bam/src/exp_tokenizer.cc:213-220 | Five texts: `a\` and the brace `{h\` are read past; `a\\`, a lone backslash, and one in an open quote are not. |
| ExpText.QuoteReadBack | bam/src/exp_tokenizer.cc:189-212 | Any non-empty string, in double quotes with backslash and quote escaped, is read back as that string, whatever follows. |
| ExpText.TextReadBack | bam/src/exp_tokenizer.cc:68-109 | Every list of tokens, written out and separated by spaces, is read back as that list. |
| ExpText.BracedReadBack | bam/src/exp_tokenizer.cc:129-168 | Any host and service, quoted between braces, are read as SERVICESTATUS with its arguments in that order. |
| ExpText.BracedHostReadBack | bam/src/exp_tokenizer.cc:149-158 | A host alone between braces is read as HOSTSTATUS of it. |
| ExpText.BracedWordReadBack | bam/src/exp_tokenizer.cc:134-141 | An operator word or the name of a state between braces is read as itself. |
| ExpText.BracedIsCall | bam/src/exp_tokenizer.cc:129-168 | A service between braces is compiled like the call of SERVICESTATUS with its host and itself. |
| ExpParser.Step | bam/src/exp_parser.cc:117-214 | One turn of the shunting-yard loop keeps the arity stack at least as high as there are functions on the operator stack, so neither `arity.top()` nor `arity.pop()` meets an empty stack on any token list. |
| ExpParser.ReadDecimalOfDecimal | bam/src/exp_parser.cc:200-203 | The arity written into the notation is read back as the number it was. |
| ExpParser.Parser.PopUntilOpen | bam/src/exp_parser.cc:132-135 | The loop moves the operators above the next parenthesis to the output, in order. |
| ExpParser.Parser.PopWhileBinding | bam/src/exp_parser.cc:161-168 | The loop moves exactly the operators that bind at least as tightly. |
| ExpParser.Parser.Read | bam/src/exp_parser.cc:117-214 | The loop body does one step of the specification, or throws its error. |
| ExpParser.Parser.GetPostfix | bam/src/exp_parser.cc:92-230 | The method appends the postfix notation of its tokens to what the object held before, or throws the specified error; so only the first call on an object returns the notation alone. What that notation is, is pinned by `TwoOperators`, the two lemmas on prefixes, and `ExpPrinter.ParsedIffPlain`. |
| ExpParser.PostfixAfter | bam/src/exp_parser.cc:92-230 | A parser that already holds output appends the notation of its tokens to it. |
| ExpParser.PostfixConserves | bam/src/exp_parser.cc:117-227 | On any accepted token list no operator and no function is lost, duplicated or invented, prefixes being marked. |
| ExpParser.AcceptedIffBalanced | bam/src/exp_parser.cc:128-151 | A list is accepted if and only if its parentheses match and every comma stands in a parenthesis while some call is open; without commas, if and only if its parentheses match; with matching parentheses the only rejection is a comma outside a call. |
| ExpParser.RunScanned | bam/src/exp_parser.cc:117-214 | The same from any state of the loop, for any rest of the tokens. |
| ExpParser.CommaInInnerParenthesis | bam/src/exp_parser.cc:128-147 | A comma in a parenthesis of its own inside a call is accepted, outside of one it is not. |
| ExpParser.TwoOperators | bam/src/exp_parser.cc:36-58 | For all operands a, b, c and all binary operators o1, o2: `a o1 b o2 c` becomes `a b c o2 o1` if the class of o2 ({&&, AND, a double bar, OR, ^, XOR}, {IS, NOT, >, >=, <, <=, ==, !=}, {+, -}, {*, /, %}, loosest first) binds tighter than that of o1, and `a b o1 c o2` otherwise. |
| ExpParser.PrefixThenOperator | bam/src/exp_parser.cc:149-158 | A prefix before the left operand of any binary operator is applied to that operand alone. |
| ExpParser.OperatorThenPrefix | bam/src/exp_parser.cc:149-158 | So is a prefix before the right operand. |
| ExpPrinter.PlainIsParsed | bam/src/exp_parser.cc:36-58 | An expression printed with only the parentheses that the precedence table asks for is parsed to its postorder, each call followed by its argument count, if no later argument of a call starts with a prefix operator; which table that is, `ExpParser.TwoOperators` says for all operators. |
| ExpPrinter.MarksOfPrint | bam/src/exp_parser.cc:149-158 | Of a printed expression the parser misses exactly the prefixes that start a later argument of a call. |
| ExpPrinter.MisreadIsNotPostorder | bam/src/exp_parser.cc:149-150 | Every other expression is parsed to something else than its postorder. |
| ExpPrinter.ParsedIffPlain | bam/src/exp_parser.cc:92-230 | Both together, for every expression: the notation is the postorder if and only if no later argument of a call starts with `-` or `NOT`. |
| ExpPrinter.MinusAfterComma | bam/src/exp_parser.cc:149-150 | The smallest expression that is misread: `MAX(a, -b)`. |
| ExpText.GetPostfix | bam/src/exp_parser.cc:92-230 | From a text, the tokenizer and the parser together compute the specified notation or error. |
| ExpText.TextCompilesIffPlain | bam/src/exp_parser.cc:92-230 | From written text to postfix: the text of an expression compiles to its postorder if and only if no later argument of a call starts with `-` or `NOT`. |
| ExpBuilder.ExecutePostorder | bam/src/exp_builder.cc:55-191 | Running the builder over the postorder of an expression leaves on the operand stack what the expression means, whatever comes before and after it. |
| ExpBuilder.BuiltAsMeant | bam/src/exp_builder.cc:51-198 | Parsing and building a printed expression of the supported fragment gives the tree of that expression back. |
| ExpGraph.Builder.Make | bam/src/exp_builder.cc:98-101 | A new node is linked over its operands; the nodes stay a graph in which every cache is current, and every tree formed before is still formed. |
| ExpGraph.Builder.PopOperand | bam/src/exp_builder.cc:278-312 | The top operand becomes a node of its tree, strings becoming constants; the error case is an empty stack. |
| ExpGraph.Builder.Operator | bam/src/exp_builder.cc:59-104 | An operator token changes the operand stack as specified, or throws the specified error. |
| ExpGraph.Builder.PopTexts | bam/src/exp_builder.cc:321-336 | The strings popped are those on the stack, last first, or the error. |
| ExpGraph.Builder.Function | bam/src/exp_builder.cc:105-185 | A function token with its arity changes the operand stack as specified, or throws the specified error. |
| ExpGraph.Builder.Build | bam/src/exp_builder.cc:51-198 | The nodes allocated form the specified tree, in a graph of trees whose caches are current, with every service listed; or the specified error is thrown. |
| ExpGraph.Builder.Deliver | bam/src/bool_service.cc:129-140 | A status reaches all service nodes it names, and all caches are current afterwards. |
| ExpGraph.Builder.Run | bam/src/bool_service.cc:129-140 | After any sequence of service updates with propagation, the root has the value its tree has over the latest statuses. |
| ExpGraph.TreeIsDirect | bam/src/bool_operation.cc:80-102 | Evaluating the nodes from the services up is evaluating the tree. |
| ExpGraph.Serve | bam/src/exp_builder.cc:51-198 | From text and status history to value: tokenizer, parser, builder and propagation together compute the value of the built tree over the latest statuses, or fail where one of them throws. What the value of each operator and operand is, module ExpServed says on texts. |
| ExpGraph.ServedAsMeant | bam/src/exp_builder.cc:51-198 | On the text of every expression of the supported fragment that value is the one the expression means. |
| ExpGraph.MinusIsDropped | bam/src/exp_builder.cc:61-62 | The unary minus is a no-op: `-e` has the value minus e if and only if the value is zero or not a number. |
| ExpGraph.MinusIsServedAsPlus | bam/src/exp_builder.cc:61-62 | The text of `-e` is served with the value of the text of e, whatever statuses were received. |
| ExpServed.LogicServed | bam/src/bool_and.cc:57-59 | On texts: `AND` and `&&` hold if and only if neither side is 0, `OR` and its sign if and only if one side is not, `XOR` and `^` if and only if exactly one is not; the value is 0 or 1. |
| ExpServed.EqualityServed | bam/src/bool_equal.cc:59-61 | On texts: `==` and `IS` hold for numbers closer than 0.0001, `!=` and `NOT` for all other numbers, and none holds without two numbers. |
| ExpServed.OrderServed | bam/src/bool_less_than.cc:65-67 | On texts: which of `<`, `<=`, `>`, `>=` hold for smaller, equal and greater numbers; none without two numbers. |
| ExpServed.ArithmeticServed | bam/src/bool_operation.cc:80-92 | On texts: `+` and `*` are exact, `-` undoes `+`, `*` undoes `/`, which has no value exactly for a divisor next to zero; what is no number stays none. |
| ExpServed.RemainderServed | bam/src/bool_operation.cc:93-99 | On texts: `%` is what is left of the dividend cut off towards zero when a multiple of the divisor is taken off, smaller than the divisor and of the sign of the dividend; it has no value exactly for a divisor between -1 and 1. |
| ExpServed.NotServed | bam/src/bool_not.cc:91-93 | On texts: a negation holds if and only if the value is 0. |
| ExpServed.WordServed | bam/src/exp_builder.cc:286-304 | On texts: the names of states are their numbers, any other word is what strtod makes of it. |
| ExpServed.StatusServed | bam/src/exp_builder.cc:125-143 | On texts: SERVICESTATUS has the hard state of the last status received about that service of that host, whatever was received about others since. |
| ExpServed.UnknownServiceServed | bam/src/exp_builder.cc:131-136 | On texts: a service that is not configured, or with an id of 0, makes the builder throw. |
| ExpBuilder.CallTakes | bam/src/exp_builder.cc:105-185 | How many arguments each function takes off the stack, with another number it is refused; only SERVICESTATUS leaves an operand, and the classical functions leave their arguments. |
| ExpServed.BracedServed | bam/src/exp_tokenizer.cc:129-168 | A service between braces is served like SERVICESTATUS. |
| Computable.Remainder | bam/src/bool_operation.cc:93-99 | The remainder has the sign of the dividend and, with the truncated quotient, gives the dividend back. |
| Computable.TakenExactly | bam/src/bool_binary_operator.cc:79-97 | Exactly when a notification leaves the cached operands right: the hard values unless the node is its own left and right operand; the right soft value not if only it changed, the test being inverted. |
| Computable.Node.OperandHasUpdate | bam/src/bool_binary_operator.cc:73-114 | The cached values of the operand become its current ones, but for the inverted soft test; the other operand is untouched. |
| Computable.Node.ImpactHasUpdate | bam/src/ba.cc:132-176 | The cached impact becomes the current one; false is returned only if nothing changed; a downtime of the BA does not end. |
| Computable.Node.ExpressionHasUpdate | bam/src/kpi_boolexp.cc:134-155 | The visit leaves an event open: CRITICAL exactly for the value that triggers the KPI, unless the expression is not known and an event was open, which then stays. |
| Computable.Node.ChildHasUpdate | bam/src/computable.cc:79-87 | Whatever the class of the node, its cache about the child is current afterwards, its cache about others is kept, and false means that it shows nothing new. Only the KPI of an expression that is told by it with a visitor has another event: that of its value, or the one before if the expression is not known. |
| Computable.Node.Notify | bam/src/computable.cc:79-87 | Telling one parent makes it current, adds at most that parent to the reasons for staleness, and touches the event of no other KPI. |
| Computable.Node.TellParents | bam/src/computable.cc:76-87 | After the first loop the node itself is no longer a reason for staleness, the parents that changed are, nothing at or below the node changed, and exactly the KPIs of the node have the event that follows from it. |
| Computable.Node.PropagateUpdate | bam/src/computable.cc:75-98 | On any acyclic graph, with shared ancestors and diamonds, propagation ends, and every cached hard value and every cached impact is current again, also of a BA that asks its KPIs for their downtimes instead of its cache; nothing at or below the node changes. Where boolean nodes have one parent, exactly the KPIs whose expressions are computed from the node have the event that follows from its final value. |
| Computable.Node.ServiceUpdate | bam/src/bool_service.cc:129-140 | A service update with propagation leaves every cache current. With a visitor every KPI whose expression reads the service has an event open: CRITICAL if and only if the value of the expression, computed without caches, is the one that triggers it, OK otherwise, or the event before if the expression is not known; the events of all other KPIs are untouched. |
| Computable.Node.ServiceKpiUpdate | bam/src/kpi_service.cc:183-212 | An update of a service KPI with propagation leaves every cache current, and the events of the KPIs of expressions untouched. |
| Computable.Node.DowntimeUpdate | bam/src/ba.cc:627-648 | So does a downtime of a BA that starts or ends, and the BA itself changes in nothing else. |
| Computable.UnseenStays | bam/src/ba.cc:57-70 | A BA in worst or best mode that ignores KPIs in downtime reads them live: once it may show something that its parents were not told of, it stays so until it is told, since no downtime ends while an update propagates. |
| Computable.ShownKept | bam/src/ba.cc:332-338 | Told of all downtimes of its KPIs before and after a change elsewhere, such a BA shows what it showed. |
| Computable.AllCurrent | bam/src/computable.cc:75-98 | With no reason for staleness left, every cache is what its node shows, and every BA knows the downtimes of its KPIs. |
| Computable.AllParentsTold | bam/src/computable.cc:75-98 | What reads through to a node reads through a parent of it that was told: once all were told, the node is no reason for staleness. |
| Computable.CoherentIsDirect | bam/src/bool_binary_operator.cc:121-142 | When every cache is current, each node has the value of its expression computed without caches. |
| Computable.ExpressionImpact | bam/src/kpi_boolexp.cc:183-203 | What a BA has cached about the KPI of an expression when nothing is stale: the whole impact unless OK, no acknowledgement, no downtime share; CRITICAL if and only if the directly computed value triggers it, or the state of the open event if the expression is not known; in downtime if and only if some service in it is. |
| Computable.ActivityKpiImpact | bam/src/kpi_ba.cc:208-238 | What a BA has cached about the KPI of another BA: the nominal impact of the state shown, and of it the share that acknowledgements and downtimes are percent of. |
| Computable.KnownIff | bam/src/bool_operation.cc:136-144 | An expression is known if and only if every service in it was heard of and no division or remainder in it has a right operand next to zero, hard or soft. |
| Computable.SoftIsDirect | bam/src/bool_binary_operator.cc:121-142 | Where soft operands are cached right, soft values are those of the expression over the soft states. |
| BusinessActivity.OneOrder | bam/src/ba.cc:685-712 | The two tests are the two strict directions of one total order OK < UNKNOWN < WARNING < CRITICAL. |
| BusinessActivity.AppliedRight | bam/src/ba.cc:683-747 | Applying an impact to a side that agrees with the other impacts makes it agree with all, in every mode: sums, worst or best state, or number of critical KPIs. |
| BusinessActivity.TakenBackRight | bam/src/ba.cc:797-810 | In impact mode taking an impact back is the inverse of applying it. |
| BusinessActivity.ExtremesAreUnique | bam/src/ba.cc:725-739 | The worst and the best state do not depend on the order of iteration. |
| BusinessActivity.Ba.constructor | bam/src/ba.cc:79-100 | A fresh BA agrees with its empty set of impacts and has an empty log. |
| BusinessActivity.Ba.ApplyAgain | bam/src/ba.cc:823-827 | Applying the impacts again in any order, all but some, makes a restarted side agree with them, and moves levels, acknowledgements and downtimes of both sides by their sums. |
| BusinessActivity.Ba.Recompute | bam/src/ba.cc:774-788 | The periodic recomputation makes all totals agree with the impacts. |
| BusinessActivity.Ba.Unapply | bam/src/ba.cc:795-829 | Whether or not the recomputation fires in the middle, the totals of both sides agree with the remaining impacts; in impact mode they are exact; outside of it, on both sides, the level sinks and the totals of acknowledgements and downtimes grow by the sums over the remaining impacts. |
| BusinessActivity.ExactAgainIff | bam/src/ba.cc:822-828 | Level, acknowledgements and downtimes that were exact stay so outside impact mode if and only if each of the three sums before was nothing. |
| BusinessActivity.Ba.AddImpact | bam/src/ba.cc:107-122 | Adding a KPI keeps the totals exact; adding it twice changes nothing. |
| BusinessActivity.Ba.RemoveImpact | bam/src/ba.cc:406-413 | Removing a KPI keeps the totals exact. |
| BusinessActivity.Ba.Replace | bam/src/ba.cc:160-167 | Replacing an impact keeps the totals exact. |
| BusinessActivity.Ba.ChildHasUpdate | bam/src/ba.cc:132-176 | The BA takes in exactly the new impact, keeps totals and event log right, ends no downtime, tells with a visitor the state that the impacts then amount to, inherits a downtime exactly while it is not OK and every KPI that is not OK is in downtime, moves its last update to the change of the KPI, and returns false, with nothing changed, if and only if the impact was the same. |
| BusinessActivity.Ba.Visit | bam/src/ba.cc:519-541 | The visit writes exactly the specified records: the event log alternates opening and closing records, each event starting where the last ended and not ending before it starts, adjacent events differing; the open event tells the current downtime, and the state that the KPIs amount to: in impact mode by 100 minus the nominal impacts that count against the two levels, in the ratio modes by the number or percentage of critical KPIs reaching them, in worst and best mode the worst or best state of those that count, or OK if all are ignored. A new event in impact mode has that level, or 0 below it. |
| BusinessActivity.Ba.StateIsRight | bam/src/ba.cc:311-347 | The same of the state itself, in every mode, whenever the totals agree with the impacts. |
| BusinessActivity.Ba.Open | bam/src/ba.cc:755-766 | The new event starts at the last update, with the current state, downtime and level. |
| BusinessActivity.Ba.SetInitialEvent | bam/src/ba.cc:467-474 | An event restored from the database starts the log, unless there is one. |
| BusinessActivity.Ba.ComputeInheritedDowntime | bam/src/ba.cc:853-895 | A downtime is inherited exactly while the BA is not OK and every KPI that is not OK is in downtime. |
| BusinessActivity.Ba.DowntimeUpdate | bam/src/ba.cc:627-648 | A downtime of the BA that starts or ends is told by a new event. |
| BusinessActivity.DowntimeOutlivesInheritance | bam/src/ba.cc:885-894 | Ending the inheritance does not take the BA out of downtime; when its two flags agree afterwards, exactly. |
| BusinessActivity.FirstStateIsBestIff | bam/src/ba.cc:725-731 | Until the first impact is taken back, the state a BA in best mode shows is the best, on each side, if and only if some KPI that counts is OK. |
| FiniteSums.SumReplace | bam/src/ba.cc:714-723 | Replacing a value moves a sum over a map by the difference, whatever the order of summation. |
| MetaService.PartialIsAggregate | bam/src/meta_service.cc:326-349 | Where the partial update keeps a value, it is the minimum, maximum, sum or average of the metrics with the new value. |
| MetaService.AggregateIsUnique | bam/src/meta_service.cc:183-222 | A set of metrics has one aggregate. |
| MetaService.AddingIff | bam/src/meta_service.cc:58-61 | Adding a metric leaves the value right exactly: for a new one in a sum always, in an average if it is 0, in a minimum if it is at most 0, in a maximum if it is at least 0; the like for a metric that is set back to 0. |
| MetaService.RemovingIff | bam/src/meta_service.cc:229-232 | Removing a metric leaves the value right exactly: in a sum if the metric is 0, in an average if it is the average and not alone, in a minimum or maximum if another metric has the value. |
| MetaService.SwitchingIff | bam/src/meta_service.cc:239-242 | Changing the computation leaves the value right exactly: between minimum, maximum and average if all metrics are equal, between sum and average if there is one metric or the sum is 0, between sum and an extreme if the metrics other than one of that extreme add up to 0. |
| MetaService.SumBounds | bam/src/meta_service.cc:211-219 | No average lies beyond the extremes, and only that of equal values meets one. |
| MetaService.StillRightIff | bam/src/meta_service.cc:153-242 | The three conditions together, for every change to a meta-service that is up to date. |
| MetaService.Meta.Recompute | bam/src/meta_service.cc:183-222 | One pass over the metrics in any order computes their aggregate. |
| MetaService.Meta.RecomputePartial | bam/src/meta_service.cc:326-349 | The partial update leaves the true aggregate. |
| MetaService.Meta.AddMetric | bam/src/meta_service.cc:58-61 | A metric is added with value 0 and the meta-service is stale. |
| MetaService.Meta.RemoveMetric | bam/src/meta_service.cc:229-232 | A metric is removed and the meta-service is stale. |
| MetaService.Meta.SetComputation | bam/src/meta_service.cc:239-242 | The computation is changed and the meta-service is stale. |
| MetaService.Meta.Visit | bam/src/meta_service.cc:295-318 | The value reported is always the true aggregate, the state change flag is right, and the state is that of the value between the levels, on the side that their order says. |
| MetaService.Meta.SendServiceStatus | bam/src/meta_service.cc:357-399 | The service status is sent exactly when it is due, with the value as it stands. |
| MetaService.Meta.MetricUpdate | bam/src/meta_service.cc:153-178 | Every reachable meta-service holds the true aggregate of the metrics it was last computed from, and is marked stale if these are not its metrics; a new value is followed by a report of the true aggregate, a repeated one by the value as it stands. |
| MetaService.ReportAfterChange | bam/src/meta_service.cc:162-177 | After a change to a meta-service that is up to date, the repeated value of any metric sends the kept value if a status is due; it is the true aggregate if and only if the change left it right. |
| MetaService.DueOnChangeOnly | bam/src/meta_service.cc:362-366 | Once a status was sent, and while the clock does not go back, one is due on a change of state only. |
| MetaService.StaleReport | bam/src/meta_service.cc:162-177 | A run in which a stale value is sent: repeating the value of a metric does not recompute. |
| Correlation.IssueMakesDue | correlation/src/node.cc:706-748 | The issue of a node makes due exactly the pairs that the two visits report, none of which was due before. |
| Correlation.ReportsAreDistinct | correlation/src/node.cc:706-748 | No pair is reported twice by the five loops of the visits. |
| Correlation.Node.constructor | correlation/src/node.cc:39-51 | A fresh node is OK, has no issue, no link and no downtime. |
| Correlation.Node.AllParentsWithIssues | correlation/src/node.cc:336-349 | The loop tells whether all parents have issues, and then the latest start of the issues involved. |
| Correlation.Node.LinkedNodeUpdated | correlation/src/node.cc:506-559 | A record is written if and only if the pair is due, with the starts of both issues, the latest start of the issues involved, and the end if it closes. |
| Correlation.VisitEach | correlation/src/node.cc:709-712 | One loop of the visits opens, or closes, in the log exactly the due pairs of its targets, each once. |
| Correlation.VisitLinkedNodes | correlation/src/node.cc:706-725 | The four loops open, or close, exactly the pairs of the node and its links that are due. |
| Correlation.VisitParentOfChildNodes | correlation/src/node.cc:735-748 | The nested loop opens, or closes, exactly the due pairs of the children with their other parents. |
| Correlation.GenerateStateEvent | correlation/src/node.cc:637-667 | The old state record is closed at exactly the start of the new one; nothing else is told. |
| Correlation.ReportIssue | correlation/src/node.cc:706-748 | After both visits the open parenting records are exactly the pairs that are due, each since the latest start of the issues involved; every record written has the starts of the two issues, and the given end exactly if it closes. |
| Correlation.OpenIssue | correlation/src/node.cc:394-407 | Opening an issue leaves exactly what is due open in the log. |
| Correlation.CloseIssue | correlation/src/node.cc:383-392 | Closing an issue leaves exactly what is due open in the log; each closing record repeats its opening start and ends at the recovery. |
| Correlation.ManageStatus | correlation/src/node.cc:358-408 | Over every run of status changes the open parenting records are exactly the dependency pairs with both ends in issue and the pairs of a child and a parent where the child and all its parents are in issue; a node has an issue if and only if its state is not OK. Every parenting record of a recovery ends at its time, no record of a problem has an end, and all have the starts of the two issues. |
| Correlation.ManageAck | correlation/src/node.cc:416-445 | Acknowledging keeps all of that, stamps the open issue and writes it and the state again, and nothing else. |
| Correlation.ManageDowntime | correlation/src/node.cc:453-478 | A node is in downtime if and only if some downtime is active, and enters and leaves it without a gap in its state records. |
| Correlation.AddParent | correlation/src/node.cc:229-238 | The link is made at both ends or refused; the log stays right if and only if the link makes nothing due and ends nothing that was. |
| Correlation.ParentLinked | correlation/src/node.cc:229-238 | The same condition, on the open records: when a new link leaves what is due as it was. |
| CommitBarrier.StepHolds | core/src/mysql_connection.cc:512-561 | Every step of every thread keeps the invariant: the counter is the number of connections still to run the commit, each of which has it exactly once. |
| CommitBarrier.RunFirstTime | core/src/mysql_connection.cc:129-164 | A commit task that is run was not run before, and its barrier waits for it: the counter cannot go below zero. |
| CommitBarrier.CommitIsBarrier | core/src/mysql.cc:66-89 | In every interleaving the promise is set at most once, and exactly when the last connection has run the commit; once `commit` returned no connection touches its counter any more. |
| CommitBarrier.EarlierTasksRun | core/src/mysql.cc:66-89 | Once a commit has returned, every connection it went to has run every task it had been given before the call. |
| CommitBarrier.TasksCounted | core/src/mysql_connection.cc:599-608 | The task count of a connection is the number of tasks it has not begun. |
| CommitBarrier.CommitGoesOnIff | core/src/mysql.cc:66-89 | A commit that has not returned can always go on if and only if it was asked of at least one connection: with none, its promise is never set. |
| CommitBarrier.NeedsCommitIff | core/src/mysql_connection.cc:129-164 | In every interleaving a connection has something left to commit if and only if one of its queries went well and no commit went well since. |
| CommitBarrier.CallsAndReturns | core/src/mysql.cc:66-89 | A commit can be asked of all connections and of each one, and returns once. |
| LuaStream.LuaBinding.Write | lua/src/luabinding.cc:292-372 | Events handed to the script are counted until they are acknowledged, whatever the script does. |
| LuaStream.LuaBinding.Flush | lua/src/luabinding.cc:388-411 | A flush that acknowledges returns all that was not acknowledged yet. |
| LuaStream.StepKeeps | lua/src/stream.cc:97-152 | Every access of either thread to the shared data conserves the events and the acknowledgements. |
| LuaStream.NothingLostNorEarly | lua/src/stream.cc:195-227 | In every interleaving: events written = exposed + local + unacknowledged + counter + returned (with those on their way); the counter is never negative; events reach the script in write order; nothing is acknowledged before the script has seen it. |
| LuaStream.AcknowledgedExactly | lua/src/stream.cc:97-152 | In every interleaving: exactly the events given to the script up to its last acknowledgement, by a write or a flush, are acknowledged to the broker or on their way; the script is flushed no more often than asked; calls of the broker do not overlap; the script thread leaves only when told to, with no event in hand. |
| LuaStream.NeverStuck | lua/src/stream.cc:97-152 | Neither thread is ever without a step to take before the script thread has left. |
| LuaStream.RequestIsLost | lua/src/stream.cc:97-106 | A flush that is asked for while the script is flushing is forgotten. |
| PersistentCache.Cache.Transaction | core/src/persistent_cache.cc:123-137 | A transaction opens the .new file without emptying it; a second one is refused. |
| PersistentCache.Cache.Add | core/src/persistent_cache.cc:53-60 | An event is appended inside a transaction only. |
| PersistentCache.Cache.Commit | core/src/persistent_cache.cc:68-89 | Commit renames in the order cache to .old, .new to cache, removes .old, and stops at a rename that fails, which loses nothing. |
| PersistentCache.Cache.ReplaceWith | lua/src/macro_cache.cc:685-738 | A transaction, an add for each event and the commit make exactly the operations, one after the other, that the theorems on crashes cut short; within a transaction nothing is done. |
| PersistentCache.Cache.Rollback | core/src/persistent_cache.cc:112-116 | The transaction and its file are gone. |
| PersistentCache.RolledBack | core/src/persistent_cache.cc:112-116 | A transaction that is rolled back after any number of events leaves the cache as it was and nothing in .new, so that the next save is atomic. |
| PersistentCache.CrashDuringSave | core/src/persistent_cache.cc:173-196 | After a crash at any step of a save and reopening, the cache holds what it held, or what .new held followed by the saved events: which, at each step. |
| PersistentCache.AtomicIffNothingLeftOver | core/src/file/splitter.cc:380-410 | Saving is atomic under crashes at every step if and only if no earlier crash left anything in the .new file (or what it left makes no difference). |
| PersistentCache.LeftOverIsKept | core/src/file/splitter.cc:380-410 | Two saves, the first one crashing: the cache then holds events of both. |
| MacroCache.WriteKeepsValid | lua/src/macro_cache.cc:385-473 | Every event leaves each entry under its own key. |
| MacroCache.SameEntryIff | lua/src/macro_cache.cc:475-682 | Two events are about the same entry if and only if they are of one kind and have the same ids. |
| MacroCache.OwnEntry | lua/src/macro_cache.cc:475-682 | The own entry of an event is there afterwards, except that a disabled membership removes it, and a disabled group or a variable without a level leaves it. |
| MacroCache.OthersAreKept | lua/src/macro_cache.cc:442-653 | Other entries stay, but for those that belong to the poller of an instance, and the BAs and views at a truncation. |
| MacroCache.RelationsAre | lua/src/macro_cache.cc:618-653 | A relation is counted once more each time, and forgotten at a truncation only. |
| MacroCache.MacroCache.constructor | lua/src/macro_cache.cc:36-48 | A new cache is the replay of the saved events into an empty one. |
| MacroCache.MacroCache.Pass | lua/src/macro_cache.cc:385-440 | Each kind of event, handled on the maps as its own function does, changes the cache as specified. |
| MacroCache.MacroCache.ProcessInstance | lua/src/macro_cache.cc:442-473 | The three erasing loops over hosts, memberships and services remove exactly what belongs to the poller, whatever their order, before the instance is stored. |
| MacroCache.MacroCache.RemoveHosts | lua/src/macro_cache.cc:447-454 | The loop erases exactly the hosts of the poller and collects their ids. |
| MacroCache.MacroCache.RemoveMembers | lua/src/macro_cache.cc:456-461 | The nested loops erase exactly the memberships of the hosts removed. |
| MacroCache.MacroCache.RemoveServices | lua/src/macro_cache.cc:463-470 | The loop erases exactly the services of the hosts removed. |
| MacroCache.MacroCache.SaveToDisk | lua/src/macro_cache.cc:685-738 | The save runs, on the persistent cache, exactly the file operations of saving a list of the cache, or is refused within a transaction. |
| MacroCache.MacroCache.Listed | lua/src/macro_cache.cc:685-738 | The save loops write every entry and every relation once, kind after kind. |
| MacroCache.ReplayPart | lua/src/macro_cache.cc:385-473 | After any part of a list in which no instance comes after a host of its poller was replayed, the cache holds exactly that part. |
| MacroCache.ReplayOfList | lua/src/macro_cache.cc:36-48 | Replaying what was saved rebuilds the saved cache exactly. |
| MacroCache.RebuiltIff | lua/src/macro_cache.cc:446-473 | The order of saving matters: for all entries of any valid cache in any order, each once, replay rebuilds the cache if and only if no instance comes after a host of its poller. |
| MacroCache.HostIsLost | lua/src/macro_cache.cc:447-454 | A host that comes before the instance of its poller is not in the cache at the end, nor at any step after the instance. |
| MacroCache.ReplayOver | lua/src/macro_cache.cc:385-473 | A list of a valid cache replayed over any other cache: after any part of it, exactly which entries of either are there, and with which values. |
| MacroCache.ReplayOverIff | lua/src/macro_cache.cc:385-473 | The whole list replayed over any cache gives the listed cache if and only if nothing outlives it: no relation was there, and every entry is overwritten or goes with an instance of its poller. |
| MacroCache.OldOrNewIff | lua/src/macro_cache.cc:36-48 | For every disk, whatever its cache file and its .new file hold, and every save: a crash at any step, reopening and replaying gives exactly the old cache up to the second rename and exactly the new one from then on, if and only if nothing that earlier crashes left in .new outlives the new cache. |
| MacroCache.SaveAfterCrash | lua/src/macro_cache.cc:685-738 | A save that crashes at any step, then a save that ends well: the run after it starts with the cache saved second if and only if nothing of what was written the first time outlives it. |
| MacroCache.SameCacheSavedAgain | lua/src/macro_cache.cc:725-728 | If it is the same cache, that is if and only if no relation had been written. |
| MacroCache.RelationIsDoubled | lua/src/macro_cache.cc:618-627 | The smallest input: a relation left in .new is there twice after the save of the same relation. |
| DowntimeScheduler.AddKeepsSoundIff | neb/src/downtime_scheduler.cc:99-124 | Adding keeps the queues sound (managed ids only, each once, start not after end) if and only if the downtime is refused, or its id is not queued and its start is not after its end. |
| DowntimeScheduler.FirstEndHasStarted | neb/src/downtime_scheduler.cc:188-198 | The first end that is due never belongs to a downtime that still waits for its start. |
| DowntimeScheduler.StepKeepsSound | neb/src/downtime_scheduler.cc:172-199 | Removing, starting and ending keep the queues sound. |
| DowntimeScheduler.ScheduledTwice | neb/src/downtime_scheduler.cc:188-198 | A downtime scheduled twice ends twice: the second time a default-constructed downtime is written and stays managed. |
| DowntimeScheduler.RunStands | neb/src/downtime_scheduler.cc:99-229 | Over every run each scheduled downtime is where its history says. |
| DowntimeScheduler.EachToldOnce | neb/src/downtime_scheduler.cc:204-229 | Over every run each downtime is written at most once as started, then at most once as ended, neither early, and otherwise unchanged; both queues refer to managed downtimes only; one not removed still waits for its end or was written as ended. |
| DowntimeScheduler.RemovedIsSilent | neb/src/downtime_scheduler.cc:131-156 | Once a downtime was removed it is in neither queue and nothing more is written about it, over every run. |
| DowntimeScheduler.NothingDueIsLeft | neb/src/downtime_scheduler.cc:172-199 | When no queued time has come, every downtime due to start was written as started and every one due to end as ended. |
| DowntimeScheduler.Scheduler.AddDowntime | neb/src/downtime_scheduler.cc:99-124 | The method does the specified step. |
| DowntimeScheduler.Scheduler.RemoveDowntime | neb/src/downtime_scheduler.cc:131-156 | All queue entries of the id and the downtime itself are gone, and nothing else. |
| DowntimeScheduler.Scheduler.Erase | neb/src/downtime_scheduler.cc:138-145 | The erasing loop leaves the entries of other ids in order. |
| DowntimeScheduler.Scheduler.ProcessDowntimes | neb/src/downtime_scheduler.cc:172-199 | The two loops do starts and then ends that are due, at clock readings that do not go back, and leave only later times in both queues. |
| Availability.ClippingCounts | bam/src/availability_builder.cc:91-106 | The clipped interval holds exactly the seconds of the period that the event covers on the day. |
| Availability.Builder.AddEvent | bam/src/availability_builder.cc:85-132 | An event adds the seconds of the period that it covers on the day to its status, and one opening if it started that day. |
| Availability.ShareSplits | bam/src/availability_builder.cc:85-132 | Two consecutive intervals count what one builder over both counts, durations and openings. |
| Availability.LeftOutAddsNothing | bam/src/availability_thread.cc:270-280 | The rows that the queries leave out would have added nothing. |
| Availability.DayIsAccountedFor | bam/src/availability_builder.cc:108-131 | Events that do not overlap never total more than the period has on the day, and exactly that if and only if they cover it. |
| Availability.ColumnsAreTimes | bam/src/availability_builder.cc:108-131 | For events that do not overlap each column is the time of the period that the activity spent in its status, and the number of events that began it; a downtime counts as nothing else. |
| Availability.RowsAreAccountedFor | bam/src/availability_thread.cc:244-250 | If the events of an activity do not overlap, the rows written for it and a period over all the days add up to no more seconds than the period has from first to last, and to exactly that many if and only if the events cover them; each column is the time spent in its status. |
| Availability.Post | bam/src/availability_thread.cc:299-320 | The builder of an activity and period is found or made, and takes the event; all other builders are untouched. |
| Availability.PostClosed | bam/src/availability_thread.cc:285-324 | The first query fills the builders with the finished events. |
| Availability.PostOpen | bam/src/availability_thread.cc:345-370 | An open event is counted for every period of its activity. |
| Availability.BuildDay | bam/src/availability_thread.cc:262-387 | The rows of a day are what is due to each activity and period that day; without a row nothing is due. |
| Availability.BuildAvailabilities | bam/src/availability_thread.cc:243-250 | The rows of consecutive days, whatever their lengths, add up to what one builder over the whole range counts, and are accounted for by the period where events do not overlap. |
| LineProtocol.Replace | core/inc/com/centreon/broker/misc/string.hh:39-48 | The in-place replacement puts a backslash before every occurrence and changes nothing else. |
| LineProtocol.EscapedTwice | influxdb/src/line_protocol_query.cc:132-152 | Replacing one character after another escapes all of them at once. |
| LineProtocol.RunEscaper | influxdb/src/line_protocol_query.cc:132-167 | Each escaper escapes exactly its special characters. |
| LineProtocol.ReadBackIff | influxdb/src/line_protocol_query.cc:132-167 | Escaped text before a separator is read back if and only if it does not end with a backslash, which no escaper escapes. |
| LineProtocol.SplitSpells | influxdb/src/line_protocol_query.cc:278-291 | A template splits if and only if its dollar signs come in pairs, and its pieces spell it. |
| LineProtocol.PiecewiseIsWhole | influxdb/src/line_protocol_query.cc:62-67 | For names and keys escaping piece by piece is escaping the whole. |
| LineProtocol.OwnMacros | influxdb/src/line_protocol_query.cc:291-346 | What the macros write that name a part of the event itself; `$$` writes a dollar sign. |
| LineProtocol.MetricMacros | influxdb/src/line_protocol_query.cc:293-321 | The macros of metrics and of the index. |
| LineProtocol.NodeMacros | influxdb/src/line_protocol_query.cc:443-484 | The host and service ids are those of the metric, or those that the cache knows for the index of the status; without it nothing is written. |
| LineProtocol.NameMacros | influxdb/src/line_protocol_query.cc:430-488 | The macros for names write the name that the cache knows for what the macros for ids write. |
| LineProtocol.OtherMacros | influxdb/src/line_protocol_query.cc:345-348 | Any other macro writes nothing. |
| LineProtocol.RefusedIff | influxdb/src/line_protocol_query.cc:293-315 | A macro is refused if and only if it is METRIC or METRICID in a query that is not for metrics. |
| LineProtocol.ValueIsWholeIff | influxdb/src/line_protocol_query.cc:95-98 | A string value is one quoted string if and only if its template writes exactly one piece. |
| LineProtocol.RunIsDirect | influxdb/src/line_protocol_query.cc:176-202 | Running the getters of a template writes the direct left-to-right substitution with each piece escaped on its own. |
| LineProtocol.LineIsDirect | influxdb/src/line_protocol_query.cc:43-104 | The same for a whole line, for every metric or status and every cache. |
| LineProtocol.StringAt | influxdb/src/line_protocol_query.cc:381-384 | The n-th string getter reads the n-th compiled string, so the index stays in range. |
| LineProtocol.SchemeOnce | influxdb/src/line_protocol_query.cc:278-352 | One turn of the compile loop: text before the macro, the macro, and the rest of the template. |
| LineProtocol.LineProtocolQuery.CompileScheme | influxdb/src/line_protocol_query.cc:272-352 | The loop ends, throws exactly on an unclosed macro or one of the wrong kind, and otherwise appends the code of the template. |
| LineProtocol.LineProtocolQuery.CompileTags | influxdb/src/line_protocol_query.cc:67-80 | The tags are compiled in order, each after a comma. |
| LineProtocol.LineProtocolQuery.CompileFields | influxdb/src/line_protocol_query.cc:85-99 | The fields are compiled in order, with commas between them. |
| LineProtocol.LineProtocolQuery.Compile | influxdb/src/line_protocol_query.cc:43-104 | The constructor throws exactly if a part of the line does not compile, and otherwise holds the code of the line. |
| LineProtocol.LineProtocolQuery.Generate | influxdb/src/line_protocol_query.cc:176-238 | The line generated is what its templates mean, empty if a name is missing, however often the query ran before; a query of the other kind throws. |
| KpiService.CoveredOnce | bam/src/kpi_service.cc:361-389 | In an unbroken history every time between the first start and the start of the open event is covered by exactly one closed event. |
| KpiService.VisitKeepsHistory | bam/src/kpi_service.cc:371-389 | No visit breaks the history: closed events last, each event starts where the one before ended and differs from it, even if check times go backwards. |
| KpiService.CurrentIff | bam/src/kpi_service.cc:381-388 | After a visit the open event is the state seen, except exactly when it differs and the check is not later than its start. |
| KpiService.HistoryStarts | bam/src/kpi.cc:90-113 | An initial event starts an unbroken history if and only if it is not closed at once, or closed after its start. |
| KpiService.KpiService.constructor | bam/src/kpi_service.cc:37-48 | A fresh KPI is OK and has no history. |
| KpiService.KpiService.KpiInitialEvent | bam/src/kpi.cc:90-113 | The event of the database is taken, or closed now and opened again if its impact is no longer right. |
| KpiService.KpiService.SetInitialEvent | bam/src/kpi_service.cc:460-464 | The check time and the downtime flag follow the initial event; an event that is there is kept. |
| KpiService.KpiService.CommitInitialEvents | bam/src/kpi.cc:121-133 | The initial events are written once, in order. |
| KpiService.KpiService.Visit | bam/src/kpi_service.cc:361-389 | The visit writes the specified records and keeps the history unbroken, or stops where a state has no impact. |
| KpiService.KpiService.OpenNewEvent | bam/src/kpi_service.cc:437-453 | The new event starts at the check, with the state and downtime seen and the impact that belongs to them. |
| KpiService.KpiService.StatusUpdate | bam/src/kpi_service.cc:183-212 | A status with or without a check time keeps the history unbroken. |
| KpiService.KpiService.AcknowledgementUpdate | bam/src/kpi_service.cc:220-239 | The flag is set from the deletion time as in the code, which tells that the acknowledgement stands only if that time is 0; the history stays unbroken. |
| KpiService.KpiService.DowntimeUpdate | bam/src/kpi_service.cc:247-264 | A downtime sets the flag and keeps the history unbroken. |

## Left out

- SQL text, MySQL client calls, result fetching and statement binding: foreign calls, represented by their outcomes.
- Sockets, gRPC, HTTP, the Lua C interface, logging, factories and connectors: no state worth proving.
- Time-period internals and calendar arithmetic: a time period is the set of its seconds, and the next midnight is a function of the last one.
- Floating-point rounding: doubles are reals. `strtod` is a parameter of the builder.
- Integer widths: counters and times are unbounded, except for the failure value of `duration_intersect`.
- ExpBuilder.BuiltAsMeant: covers expressions whose every part leaves one operand; other calls leave operands that the builder rejects or misplaces. `strtol` is modelled on the decimal arities that the parser writes; any other word reads as 0.
- ExpText.TextReadBack: tokens written with spaces between them; other spacings of the same tokens are read by the same specification but not shown to give the same list.
- Computable.Node.PropagateUpdate: covers hard values and impacts. Soft values of right operands are not kept current by the code; the flags `_state_known` and `_in_downtime` are read through instead of cached; parents that were destroyed are not modelled, the graph does not change while it propagates, and the two operands of an operator are different nodes. Of the events of the KPIs of expressions the status is modelled, and what they are after a propagation is stated for boolean nodes with one parent, as the builder makes them.
- Computable.Node.ImpactHasUpdate: the state and totals that a BA computes from a changed impact are arbitrary there; `BusinessActivity.Ba.ChildHasUpdate` says what they are and keeps the same promises. That a BA reads whether KPIs are in downtime live, to be OK if all are, is modelled; the list of a BA's KPIs does not change.
- BusinessActivity.Ba.ChildHasUpdate: the soft state is read off the soft side as the hard state is off the hard side, without the exception for downtimes, and is not modelled; status records and virtual statuses are field copies and left out; the state source and the downtime behaviour are fixed before the first impact is added.
- MetaService.Meta.MetricUpdate: metric values are numbers, never NaN.
- Correlation.ManageStatus: times are not null and a stream is there; links are the same at both ends, never to oneself and never both ways; the start times of acknowledgements inside state records, log entries and serialisation are not modelled.
- Correlation.AddParent: the other three ways to add a link, and removing links, follow the same pattern and are not modelled.
- CommitBarrier.CommitIsBarrier: no connection is finished, and a task is a query or a commit; prepared statements, errors other than a failed commit and the fetch of results are queries here.
- LuaStream.NothingLostNorEarly: says nothing about events written while the worker leaves; the exit test can miss a late write. Failures to load the script are left out.
- PersistentCache.CrashDuringSave: files hold whole events; a write cut in the middle of an event is not modelled.
- MacroCache.OldOrNewIff: entries are represented by the fields the cache uses as keys or tests.
- DowntimeScheduler.Scheduler.ProcessDowntimes: `run`, which sleeps and takes the same mutex twice, the condition variable and the thread are left out.
- DowntimeScheduler.EachToldOnce: for callers that schedule an id once, with a start not after its end, and before it has ended; AddKeepsSoundIff says what happens otherwise.
- Availability.BuildDay: every period an activity is related to is known (otherwise the code throws and writes no row for the day); the flag that marks the default period is not modelled. Finished events do not end before they start.
- LineProtocol.LineProtocolQuery.Generate: numbers are held as they are printed; logging of unknown macros is left out.
- KpiService.KpiService.Visit: status records are field copies and left out; propagation to the parents is the subject of Computable. Event times are not negative.

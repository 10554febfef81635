/** correlation/src/node.cc: the nodes of the correlation graph. A node in a non-OK state
    has an issue; which issues caused which is told by a log of parenting records. */
module Correlation {
  import opened Options

  /** Parenting between a node and its parents, or between a node and what it depends on.
      A record of the program does not say which; the two are kept apart here. */
  datatype Kind = Parenthood | Dependency

  datatype Key = Key(kind: Kind, child: Node, parent: Node)

  datatype Event =
    | StateEvent(node: Node, record: Record)
    | IssueEvent(node: Node, issue: Issue)
    | ParentEvent(key: Key, childStart: int, parentStart: int, start: int, end: Option<int>)

  /** A state of a node: open as long as it has no end. */
  datatype Record = Record(start: int, end: Option<int>, state: int, inDowntime: bool)

  datatype Issue = Issue(start: int, end: Option<int>, ackTime: Option<int>)

  /** How linked_node_updated is told who calls: what the caller is to the callee. */
  datatype Link = ToChildren | ToParent | ToDependedBy | ToDependsOn

  class Stream {
    var events: seq<Event>
    constructor ()
      ensures events == []
    {
      events := [];
    }
  }

  // -------------------------------------------------- what the log has open

  datatype Ledger = Broken | Ledger(open: map<Key, int>)

  /** Nothing is opened or closed twice, and a closing record repeats the start of its
      opening record. */
  function Enter(l: Ledger, e: Event): Ledger {
    if l.Broken? || !e.ParentEvent? then l
    else if e.end.None? then
      if e.key in l.open then Broken else Ledger(l.open[e.key := e.start])
    else
      if e.key in l.open && l.open[e.key] == e.start then Ledger(l.open - {e.key}) else Broken
  }

  function LedgerOf(log: seq<Event>): Ledger {
    if log == [] then Ledger(map[]) else Enter(LedgerOf(log[..|log| - 1]), log[|log| - 1])
  }

  lemma LedgerOfMore(log: seq<Event>, e: Event)
    ensures LedgerOf(log + [e]) == Enter(LedgerOf(log), e)
  {
    assert (log + [e])[..|log|] == log;
  }

  // ------------------------------------------------------------------ nodes

  function Max(a: int, b: int): int { if a > b then a else b }

  class Node {
    var parents: set<Node>
    var children: set<Node>
    var dependsOn: set<Node>
    var dependedBy: set<Node>
    var issue: Option<Issue>
    var current: Record            // the open state record
    var downtimes: map<nat, int>   // active downtimes and their scheduled start
    var ack: Option<(int, bool)>   // time of the acknowledgement, and whether it is sticky

    constructor (now: int)
      ensures parents == children == dependsOn == dependedBy == {}
      ensures issue.None? && current == Record(now, None, 0, false) && downtimes == map[]
    {
      parents, children, dependsOn, dependedBy := {}, {}, {}, {};
      issue, current, downtimes, ack := None, Record(now, None, 0, false), map[], None;
    }

    /** An issue is open exactly in a non-OK state, and the node is in downtime exactly as
        long as some downtime is active. */
    ghost predicate Sound()
      reads this
    {
      && (issue.Some? <==> current.state != 0)
      && (current.inDowntime <==> downtimes != map[])
      && current.end.None?
    }

    /** all_parents_with_issues_and_get_start_time. */
    method AllParentsWithIssues(seed: int) returns (all: bool, latest: int)
      ensures all <==> forall q :: q in parents ==> q.issue.Some?
      ensures all ==> seed <= latest && forall q :: q in parents ==> q.issue.value.start <= latest
      ensures all ==> latest == seed || exists q :: q in parents && q.issue.value.start == latest
    {
      latest := seed;
      var todo := parents;
      while todo != {}
        invariant todo <= parents
        invariant forall q :: q in parents - todo ==> q.issue.Some? && q.issue.value.start <= latest
        invariant seed <= latest
        invariant latest == seed || exists q :: q in parents - todo && q.issue.value.start == latest
      {
        var q :| q in todo;
        if q.issue.None? { return false, latest; }
        if latest < q.issue.value.start { latest := q.issue.value.start; }
        todo := todo - {q};
      }
      all := true;
    }

    /** linked_node_updated: reports the pair of this node and n if it is due. */
    method LinkedNodeUpdated(n: Node, time: int, closed: bool, link: Link, stream: Stream, ghost S: set<Node>)
      returns (ghost start: int)
      requires Net(S) && this in S && n in S && Linked(this, n, link)
      modifies stream
      ensures var k, I := KeyOf(this, n, link), Issues(S);
              if Due(k, I) then
                StartsAt(k, I, start) &&
                stream.events == old(stream.events) + [Report(k, I, start, EndOf(time, closed))]
              else stream.events == old(stream.events)
    {
      var key := KeyOf(this, n, link);
      start := 0;
      if issue.Some? && n.issue.Some? {
        var first := key.child.issue.value.start;
        if key.kind == Dependency {
          start := Max(issue.value.start, n.issue.value.start);
          var later := if issue.value.start > n.issue.value.start then issue.value.start else n.issue.value.start;
          stream.events := stream.events + [ParentEvent(key, first, key.parent.issue.value.start, later, EndOf(time, closed))];
        } else {
          var all, latest := key.child.AllParentsWithIssues(first);
          if all {
            start := latest;
            stream.events := stream.events + [ParentEvent(key, first, key.parent.issue.value.start, latest, EndOf(time, closed))];
          }
        }
      }
    }
  }

  /** The end of a parenting that a visit at `time` reports. */
  function EndOf(time: int, closed: bool): Option<int> { if closed then Some(time) else None }

  /** The record about a due pair repeats the starts of the two issues. */
  ghost function Report(k: Key, I: map<Node, int>, start: int, end: Option<int>): Event
    requires Due(k, I)
    reads k.child`parents, k.child`dependsOn
  {
    ParentEvent(k, I[k.child], I[k.parent], start, end)
  }

  /** The link the caller claims is there. */
  ghost predicate Linked(t: Node, n: Node, link: Link)
    reads t, n
  {
    match link
    case ToChildren => t in n.parents
    case ToParent => n in t.parents
    case ToDependedBy => t in n.dependsOn
    case ToDependsOn => n in t.dependsOn
  }

  /** Links are recorded at both ends, inside S, and never lead both ways or to oneself. */
  ghost predicate Net(S: set<Node>)
    reads S`parents, S`children, S`dependsOn, S`dependedBy
  {
    && (forall n :: n in S ==> n.parents <= S && n.children <= S && n.dependsOn <= S && n.dependedBy <= S)
    && (forall n, m :: n in S && m in S ==> (m in n.parents <==> n in m.children))
    && (forall n, m :: n in S && m in S ==> (m in n.dependsOn <==> n in m.dependedBy))
    && (forall n :: n in S ==> n !in n.parents && n !in n.dependsOn)
    && (forall n, m :: n in S && m in S ==> !(m in n.parents && m in n.children))
    && (forall n, m :: n in S && m in S ==> !(m in n.dependsOn && m in n.dependedBy))
  }

  /** The start times of the issues that are open. */
  ghost function Issues(S: set<Node>): map<Node, int>
    reads S`issue
  {
    map n | n in S && n.issue.Some? :: n.issue.value.start
  }

  /** The pair has to be open: both ends of a dependency have issues, or a node and all
      its parents have. */
  ghost predicate Due(k: Key, I: map<Node, int>)
    reads k.child`parents, k.child`dependsOn
  {
    match k.kind
    case Dependency => k.parent in k.child.dependsOn && k.child in I && k.parent in I
    case Parenthood => k.parent in k.child.parents && k.child in I && forall q :: q in k.child.parents ==> q in I
  }

  /** t is the latest start of the issues involved in k. */
  ghost predicate StartsAt(k: Key, I: map<Node, int>, t: int)
    requires Due(k, I)
    reads k.child`parents, k.child`dependsOn
  {
    match k.kind
    case Dependency => t == Max(I[k.child], I[k.parent])
    case Parenthood => IsLatest(k.child, I, t)
  }

  ghost predicate IsLatest(c: Node, I: map<Node, int>, t: int)
    requires c in I && forall q :: q in c.parents ==> q in I
    reads c`parents
  {
    && I[c] <= t && (forall q :: q in c.parents ==> I[q] <= t)
    && (t == I[c] || exists q :: q in c.parents && I[q] == t)
  }

  /** What is open in the log is exactly what is due, each since the right time. */
  ghost predicate Matches(S: set<Node>, I: map<Node, int>, open: map<Key, int>)
    reads S`parents, S`dependsOn
  {
    && (forall k :: k in open ==> k.child in S && k.parent in S && Due(k, I) && StartsAt(k, I, open[k]))
    && (forall kind, c, p :: c in S && p in S && Due(Key(kind, c, p), I) ==> Key(kind, c, p) in open)
  }

  // ------------------------------------------------- what one issue changes

  /** The pair linked_node_updated reports when called on node t for n. */
  function KeyOf(t: Node, n: Node, link: Link): Key {
    match link
    case ToChildren => Key(Parenthood, n, t)
    case ToParent => Key(Parenthood, t, n)
    case ToDependedBy => Key(Dependency, n, t)
    case ToDependsOn => Key(Dependency, t, n)
  }

  ghost function Reported(n: Node, targets: set<Node>, link: Link, I: map<Node, int>): set<Key>
    reads n`parents, n`dependsOn, targets`parents, targets`dependsOn
  {
    set t | t in targets && Due(KeyOf(t, n, link), I) :: KeyOf(t, n, link)
  }

  /** What the four loops of _visit_linked_nodes report. */
  ghost function ReportedLinked(x: Node, S: set<Node>, I: map<Node, int>): set<Key>
    requires Net(S) && x in S
    reads S`parents, S`children, S`dependsOn, S`dependedBy
  {
    Reported(x, x.parents, ToChildren, I) + Reported(x, x.children, ToParent, I) +
    Reported(x, x.dependsOn, ToDependedBy, I) + Reported(x, x.dependedBy, ToDependsOn, I)
  }

  /** What _visit_parent_of_child_nodes reports for some children of x. */
  ghost function ReportedSiblings(x: Node, cs: set<Node>, S: set<Node>, I: map<Node, int>): set<Key>
    requires Net(S) && x in S && cs <= x.children
    reads S`parents, S`children, S`dependsOn, S`dependedBy
  {
    set c, q | c in cs && q in c.parents && q != x && Due(Key(Parenthood, c, q), I) :: Key(Parenthood, c, q)
  }

  /** The issue of x makes due exactly what the visits report, none of which was due before. */
  lemma IssueMakesDue(x: Node, S: set<Node>, I: map<Node, int>, k: Key)
    requires Net(S) && x in S && x in I && k.child in S && k.parent in S
    ensures Due(k, I) <==> Due(k, I - {x}) || k in ReportedLinked(x, S, I) + ReportedSiblings(x, x.children, S, I)
    ensures Due(k, I - {x}) ==> k !in ReportedLinked(x, S, I) + ReportedSiblings(x, x.children, S, I)
  {
    if Due(k, I) && !Due(k, I - {x}) {
      match k.kind
      case Dependency =>
        if k.child == x {
          assert k == KeyOf(k.parent, x, ToDependedBy);
        } else {
          assert k == KeyOf(k.child, x, ToDependsOn);
        }
      case Parenthood =>
        if k.child == x {
          assert k == KeyOf(k.parent, x, ToChildren);
        } else if k.parent == x {
          assert k == KeyOf(k.child, x, ToParent);
        } else {
          assert k.child in x.children;
        }
    }
  }

  /** The five families of reports do not overlap. */
  lemma ReportsAreDistinct(x: Node, S: set<Node>, I: map<Node, int>)
    requires Net(S) && x in S
    ensures Reported(x, x.parents, ToChildren, I) !! Reported(x, x.children, ToParent, I)
    ensures Reported(x, x.parents, ToChildren, I) !! Reported(x, x.dependsOn, ToDependedBy, I)
    ensures Reported(x, x.parents, ToChildren, I) !! Reported(x, x.dependedBy, ToDependsOn, I)
    ensures Reported(x, x.children, ToParent, I) !! Reported(x, x.dependsOn, ToDependedBy, I)
    ensures Reported(x, x.children, ToParent, I) !! Reported(x, x.dependedBy, ToDependsOn, I)
    ensures Reported(x, x.dependsOn, ToDependedBy, I) !! Reported(x, x.dependedBy, ToDependsOn, I)
    ensures ReportedLinked(x, S, I) !! ReportedSiblings(x, x.children, S, I)
  {}

  lemma SiblingsOf(x: Node, cs: set<Node>, c: Node, S: set<Node>, I: map<Node, int>)
    requires Net(S) && x in S && cs <= x.children && c in x.children
    ensures ReportedSiblings(x, cs + {c}, S, I) ==
            ReportedSiblings(x, cs, S, I) + Reported(c, c.parents - {x}, ToChildren, I)
    ensures c !in cs ==> ReportedSiblings(x, cs, S, I) !! Reported(c, c.parents - {x}, ToChildren, I)
  {
    var more := Reported(c, c.parents - {x}, ToChildren, I);
    forall k | k in ReportedSiblings(x, cs + {c}, S, I)
      ensures k in ReportedSiblings(x, cs, S, I) + more
    {
      if k.child == c { assert k == KeyOf(k.parent, c, ToChildren); }
    }
    forall k | k in more ensures k in ReportedSiblings(x, cs + {c}, S, I) {
      assert k.parent in c.parents && k == Key(Parenthood, c, k.parent);
    }
  }

  // -------------------------------------------------- how the ledger moves

  /** The keys are still to be opened, or still to be closed. */
  ghost predicate Pending(closed: bool, open: map<Key, int>, keys: set<Key>, S: set<Node>, I: map<Node, int>)
    reads S`parents, S`dependsOn
  {
    && (forall k :: k in keys ==> k.child in S && Due(k, I))
    && if closed then keys <= open.Keys && forall k :: k in keys ==> StartsAt(k, I, open[k])
       else keys !! open.Keys
  }

  /** The keys were opened, each with the right start, or closed. */
  ghost predicate Moved(closed: bool, before: map<Key, int>, after: map<Key, int>,
                        keys: set<Key>, S: set<Node>, I: map<Node, int>)
    reads S`parents, S`dependsOn
  {
    if closed then after == before - keys
    else
      && after.Keys == before.Keys + keys
      && (forall k :: k in before ==> after[k] == before[k])
      && (forall k :: k in keys ==> k.child in S && Due(k, I) && StartsAt(k, I, after[k]))
  }

  lemma PendingKept(closed: bool, before: map<Key, int>, after: map<Key, int>, done: set<Key>, keys: set<Key>,
                    S: set<Node>, I: map<Node, int>)
    requires Pending(closed, before, keys, S, I) && Moved(closed, before, after, done, S, I) && keys !! done
    ensures Pending(closed, after, keys, S, I)
  {}

  lemma MovedTwice(closed: bool, m0: map<Key, int>, m1: map<Key, int>, m2: map<Key, int>,
                   k1: set<Key>, k2: set<Key>, S: set<Node>, I: map<Node, int>)
    requires Moved(closed, m0, m1, k1, S, I) && Moved(closed, m1, m2, k2, S, I) && k1 !! k2
    ensures Moved(closed, m0, m2, k1 + k2, S, I)
  {
    if closed { assert m0 - k1 - k2 == m0 - (k1 + k2); }
  }

  lemma OpenedMatches(x: Node, S: set<Node>, I: map<Node, int>, before: map<Key, int>, after: map<Key, int>)
    requires Net(S) && x in S && x in I && Matches(S, I - {x}, before)
    requires Moved(false, before, after, ReportedLinked(x, S, I) + ReportedSiblings(x, x.children, S, I), S, I)
    ensures Matches(S, I, after)
  {
    var keys := ReportedLinked(x, S, I) + ReportedSiblings(x, x.children, S, I);
    forall k | k in after ensures k.child in S && k.parent in S && Due(k, I) && StartsAt(k, I, after[k]) {
      if k in before {
        assert StartsAt(k, I - {x}, before[k]);
      } else {
        assert k in keys;
        ReportedInside(x, S, I, k);
      }
    }
    forall kind, c, p | c in S && p in S && Due(Key(kind, c, p), I) ensures Key(kind, c, p) in after {
      IssueMakesDue(x, S, I, Key(kind, c, p));
    }
  }

  lemma ReportedInside(x: Node, S: set<Node>, I: map<Node, int>, k: Key)
    requires Net(S) && x in S
    requires k in ReportedLinked(x, S, I) + ReportedSiblings(x, x.children, S, I)
    ensures k.child in S && k.parent in S && Due(k, I)
  {}

  lemma ClosedMatches(x: Node, S: set<Node>, I: map<Node, int>, before: map<Key, int>, after: map<Key, int>)
    requires Net(S) && x in S && x in I && Matches(S, I, before)
    requires Moved(true, before, after, ReportedLinked(x, S, I) + ReportedSiblings(x, x.children, S, I), S, I)
    ensures Matches(S, I - {x}, after)
  {
    forall k | k in after
      ensures k.child in S && k.parent in S && Due(k, I - {x}) && StartsAt(k, I - {x}, after[k])
    {
      IssueMakesDue(x, S, I, k);
      assert StartsAt(k, I, before[k]);
    }
    forall kind, c, p | c in S && p in S && Due(Key(kind, c, p), I - {x}) ensures Key(kind, c, p) in after {
      IssueMakesDue(x, S, I, Key(kind, c, p));
    }
  }

  lemma AllPending(closed: bool, x: Node, S: set<Node>, I: map<Node, int>, open: map<Key, int>)
    requires Net(S) && x in S && x in I && Matches(S, if closed then I else I - {x}, open)
    ensures Pending(closed, open, ReportedLinked(x, S, I) + ReportedSiblings(x, x.children, S, I), S, I)
  {
    var keys := ReportedLinked(x, S, I) + ReportedSiblings(x, x.children, S, I);
    forall k | k in keys ensures Due(k, I) && (if closed then k in open && StartsAt(k, I, open[k]) else k !in open) {
      ReportedInside(x, S, I, k);
      IssueMakesDue(x, S, I, k);
    }
  }

  // ------------------------------------------------------------- the visits

  /** A parenting record with that end, between two issues with those starts. */
  ghost predicate IsReport(e: Event, I: map<Node, int>, end: Option<int>) {
    && e.ParentEvent? && e.end == end
    && e.key.child in I && e.childStart == I[e.key.child]
    && e.key.parent in I && e.parentStart == I[e.key.parent]
  }

  /** What was written since consists of parenting records with that end. */
  ghost predicate OnlyParenting(before: seq<Event>, after: seq<Event>, I: map<Node, int>, end: Option<int>) {
    before <= after && forall i :: |before| <= i < |after| ==> IsReport(after[i], I, end)
  }

  /** One report: the key is opened or closed in the ledger if it is due. */
  method VisitOne(n: Node, t: Node, link: Link, time: int, closed: bool, stream: Stream,
                  ghost S: set<Node>, ghost open: map<Key, int>) returns (ghost open': map<Key, int>)
    requires Net(S) && n in S && t in S && Linked(t, n, link)
    requires LedgerOf(stream.events) == Ledger(open)
    requires Pending(closed, open, This(n, t, link, Issues(S)), S, Issues(S))
    modifies stream
    ensures LedgerOf(stream.events) == Ledger(open')
    ensures Moved(closed, open, open', This(n, t, link, Issues(S)), S, Issues(S))
    ensures OnlyParenting(old(stream.events), stream.events, Issues(S), EndOf(time, closed))
  {
    hide LedgerOf, StartsAt, Issues;
    ghost var k, I, before := KeyOf(t, n, link), Issues(S), stream.events;
    ghost var start := t.LinkedNodeUpdated(n, time, closed, link, stream, S);
    open' := open;
    if Due(k, I) {
      LedgerOfMore(before, Report(k, I, start, EndOf(time, closed)));
      if closed { SameStart(k, I, start, open[k]); }
      open' := if closed then open - {k} else open[k := start];
    }
  }

  ghost function This(n: Node, t: Node, link: Link, I: map<Node, int>): set<Key>
    reads n`parents, n`dependsOn, t`parents, t`dependsOn
  {
    if Due(KeyOf(t, n, link), I) then {KeyOf(t, n, link)} else {}
  }

  /** One loop of the visits: linked_node_updated on every target, in any order. */
  method VisitEach(n: Node, targets: set<Node>, link: Link, time: int, closed: bool, stream: Stream,
                   ghost S: set<Node>, ghost open: map<Key, int>) returns (ghost open': map<Key, int>)
    requires Net(S) && n in S && targets <= S && forall t :: t in targets ==> Linked(t, n, link)
    requires LedgerOf(stream.events) == Ledger(open)
    requires Pending(closed, open, Reported(n, targets, link, Issues(S)), S, Issues(S))
    modifies stream
    ensures LedgerOf(stream.events) == Ledger(open')
    ensures Moved(closed, open, open', Reported(n, targets, link, Issues(S)), S, Issues(S))
    ensures OnlyParenting(old(stream.events), stream.events, Issues(S), EndOf(time, closed))
  {
    hide LedgerOf, Pending, Moved, Reported, This, Issues, Linked;
    ghost var I := Issues(S);
    open' := open;
    var todo := targets;
    ghost var done: set<Key> := {};
    NothingMoved(closed, open, S, I);
    NothingReported(n, link, I);
    assert targets - todo == {};
    while todo != {}
      invariant todo <= targets
      invariant LedgerOf(stream.events) == Ledger(open')
      invariant done == Reported(n, targets - todo, link, I)
      invariant Moved(closed, open, open', done, S, I)
      invariant Pending(closed, open', Reported(n, todo, link, I), S, I)
      invariant OnlyParenting(old(stream.events), stream.events, Issues(S), EndOf(time, closed))
    {
      var t :| t in todo;
      ghost var now, later := This(n, t, link, I), Reported(n, todo - {t}, link, I);
      ReportedStep(n, targets, todo, t, link, I);
      PendingSplit(closed, open', now, later, S, I);
      ghost var open1 := VisitOne(n, t, link, time, closed, stream, S, open');
      MovedTwice(closed, open, open', open1, done, now, S, I);
      PendingKept(closed, open', open1, now, later, S, I);
      open', done, todo := open1, done + now, todo - {t};
    }
    assert targets - todo == targets;
  }

  lemma NothingMoved(closed: bool, open: map<Key, int>, S: set<Node>, I: map<Node, int>)
    ensures Moved(closed, open, open, {}, S, I)
  {
    assert open - {} == open;
  }

  lemma NothingReported(n: Node, link: Link, I: map<Node, int>)
    ensures Reported(n, {}, link, I) == {}
  {}

  lemma PendingSplit(closed: bool, open: map<Key, int>, keys: set<Key>, more: set<Key>,
                     S: set<Node>, I: map<Node, int>)
    requires Pending(closed, open, keys + more, S, I)
    ensures Pending(closed, open, keys, S, I) && Pending(closed, open, more, S, I)
  {}

  lemma SameStart(k: Key, I: map<Node, int>, s: int, t: int)
    requires Due(k, I) && StartsAt(k, I, s) && StartsAt(k, I, t)
    ensures s == t
  {}

  lemma ReportedStep(n: Node, targets: set<Node>, todo: set<Node>, t: Node, link: Link, I: map<Node, int>)
    requires t in todo && todo <= targets
    ensures Reported(n, todo, link, I) == This(n, t, link, I) + Reported(n, todo - {t}, link, I)
    ensures Reported(n, targets - (todo - {t}), link, I) == Reported(n, targets - todo, link, I) + This(n, t, link, I)
    ensures Reported(n, todo - {t}, link, I) !! This(n, t, link, I)
    ensures Reported(n, targets - todo, link, I) !! This(n, t, link, I)
  {}

  lemma OnlyParentingTwice(a: seq<Event>, b: seq<Event>, c: seq<Event>, I: map<Node, int>, end: Option<int>)
    requires OnlyParenting(a, b, I, end) && OnlyParenting(b, c, I, end)
    ensures OnlyParenting(a, c, I, end)
  {}

  /** A loop in a series of loops: `done` was reported before, `rest` is left for later. */
  method VisitNext(n: Node, targets: set<Node>, link: Link, time: int, closed: bool, stream: Stream,
                   ghost S: set<Node>, ghost first: map<Key, int>, ghost open: map<Key, int>,
                   ghost done: set<Key>, ghost rest: set<Key>) returns (ghost open': map<Key, int>)
    requires Net(S) && n in S && targets <= S && forall t :: t in targets ==> Linked(t, n, link)
    requires LedgerOf(stream.events) == Ledger(open)
    requires Moved(closed, first, open, done, S, Issues(S))
    requires Pending(closed, open, Reported(n, targets, link, Issues(S)) + rest, S, Issues(S))
    requires Reported(n, targets, link, Issues(S)) !! done && Reported(n, targets, link, Issues(S)) !! rest
    modifies stream
    ensures LedgerOf(stream.events) == Ledger(open')
    ensures Moved(closed, first, open', done + Reported(n, targets, link, Issues(S)), S, Issues(S))
    ensures Pending(closed, open', rest, S, Issues(S))
    ensures OnlyParenting(old(stream.events), stream.events, Issues(S), EndOf(time, closed))
  {
    hide LedgerOf, Pending, Moved, Reported, Issues, Net, Linked;
    ghost var I := Issues(S);
    ghost var now := Reported(n, targets, link, I);
    PendingSplit(closed, open, now, rest, S, I);
    open' := VisitEach(n, targets, link, time, closed, stream, S, open);
    MovedTwice(closed, first, open, open', done, now, S, I);
    PendingKept(closed, open, open', now, rest, S, I);
  }

  /** _visit_linked_nodes. */
  method VisitLinkedNodes(x: Node, time: int, closed: bool, stream: Stream, ghost S: set<Node>,
                          ghost open: map<Key, int>, ghost rest: set<Key>) returns (ghost open': map<Key, int>)
    requires Net(S) && x in S && LedgerOf(stream.events) == Ledger(open)
    requires Pending(closed, open, ReportedLinked(x, S, Issues(S)) + rest, S, Issues(S))
    requires ReportedLinked(x, S, Issues(S)) !! rest
    modifies stream
    ensures LedgerOf(stream.events) == Ledger(open')
    ensures Moved(closed, open, open', ReportedLinked(x, S, Issues(S)), S, Issues(S))
    ensures Pending(closed, open', rest, S, Issues(S))
    ensures OnlyParenting(old(stream.events), stream.events, Issues(S), EndOf(time, closed))
  {
    hide LedgerOf, Pending, Moved, Reported, Issues, Net, Linked, OnlyParenting;
    ghost var I, start := Issues(S), stream.events;
    LinksOf(x, S);
    ghost var a, b := Reported(x, x.parents, ToChildren, I), Reported(x, x.children, ToParent, I);
    ghost var c, d := Reported(x, x.dependsOn, ToDependedBy, I), Reported(x, x.dependedBy, ToDependsOn, I);
    ReportsAreDistinct(x, S, I);
    NothingMoved(closed, open, S, I);
    ghost var rest3 := d + rest;
    ghost var rest2 := c + rest3;
    ghost var rest1 := b + rest2;
    assert a + rest1 == ReportedLinked(x, S, I) + rest;
    Distinct4(a, b, c, d, rest);
    ghost var o := VisitNext(x, x.parents, ToChildren, time, closed, stream, S, open, open, {}, rest1);
    ghost var log1 := stream.events;
    assert {} + a == a;
    o := VisitNext(x, x.children, ToParent, time, closed, stream, S, open, o, a, rest2);
    ghost var log2 := stream.events;
    o := VisitNext(x, x.dependsOn, ToDependedBy, time, closed, stream, S, open, o, a + b, rest3);
    ghost var log3 := stream.events;
    open' := VisitNext(x, x.dependedBy, ToDependsOn, time, closed, stream, S, open, o, a + b + c, rest);
    OnlyParentingTwice(start, log1, log2, I, EndOf(time, closed));
    OnlyParentingTwice(start, log2, log3, I, EndOf(time, closed));
    OnlyParentingTwice(start, log3, stream.events, I, EndOf(time, closed));
  }

  lemma Distinct4(a: set<Key>, b: set<Key>, c: set<Key>, d: set<Key>, rest: set<Key>)
    requires a !! b && a !! c && a !! d && b !! c && b !! d && c !! d && a + b + c + d !! rest
    ensures a !! b + (c + (d + rest)) && b !! a && b !! c + (d + rest)
    ensures c !! a + b && c !! d + rest && d !! a + b + c && d !! rest
  {}

  lemma LinksOf(x: Node, S: set<Node>)
    requires Net(S) && x in S
    ensures x.parents <= S && forall t :: t in x.parents ==> Linked(t, x, ToChildren)
    ensures x.children <= S && forall t :: t in x.children ==> Linked(t, x, ToParent)
    ensures x.dependsOn <= S && forall t :: t in x.dependsOn ==> Linked(t, x, ToDependedBy)
    ensures x.dependedBy <= S && forall t :: t in x.dependedBy ==> Linked(t, x, ToDependsOn)
  {}

  /** _visit_parent_of_child_nodes. */
  method VisitParentOfChildNodes(x: Node, time: int, closed: bool, stream: Stream,
                                 ghost S: set<Node>, ghost open: map<Key, int>) returns (ghost open': map<Key, int>)
    requires Net(S) && x in S && LedgerOf(stream.events) == Ledger(open)
    requires Pending(closed, open, ReportedSiblings(x, x.children, S, Issues(S)), S, Issues(S))
    modifies stream
    ensures LedgerOf(stream.events) == Ledger(open')
    ensures Moved(closed, open, open', ReportedSiblings(x, x.children, S, Issues(S)), S, Issues(S))
    ensures OnlyParenting(old(stream.events), stream.events, Issues(S), EndOf(time, closed))
  {
    hide LedgerOf, Pending, Moved, Reported, ReportedSiblings, Issues;
    ghost var I := Issues(S);
    var todo := x.children;
    open' := open;
    NothingMoved(closed, open, S, I);
    NoSiblings(x, S, I);
    assert x.children - todo == {};
    while todo != {}
      invariant todo <= x.children
      invariant LedgerOf(stream.events) == Ledger(open')
      invariant Moved(closed, open, open', ReportedSiblings(x, x.children - todo, S, I), S, I)
      invariant Pending(closed, open', ReportedSiblings(x, todo, S, I), S, I)
      invariant OnlyParenting(old(stream.events), stream.events, Issues(S), EndOf(time, closed))
    {
      var c :| c in todo;
      ghost var done, rest := ReportedSiblings(x, x.children - todo, S, I), ReportedSiblings(x, todo - {c}, S, I);
      SiblingsOf(x, todo - {c}, c, S, I);
      assert todo - {c} + {c} == todo;
      SiblingsOf(x, x.children - todo, c, S, I);
      assert x.children - todo + {c} == x.children - (todo - {c});
      ghost var now := Reported(c, c.parents - {x}, ToChildren, I);
      assert now + rest == ReportedSiblings(x, todo, S, I);
      open' := VisitNext(c, c.parents - {x}, ToChildren, time, closed, stream, S, open, open', done, rest);
      todo := todo - {c};
    }
    assert x.children - todo == x.children;
  }

  lemma NoSiblings(x: Node, S: set<Node>, I: map<Node, int>)
    requires Net(S) && x in S
    ensures ReportedSiblings(x, {}, S, I) == {}
  {}

  // ---------------------------------------------------------- state records

  /** What the state records of one node amount to. */
  datatype Trace = Torn | Untold | Opened(record: Record) | Closed(record: Record)

  /** A closing record repeats the open one, and the next record opens at the time the
      last one closed. The first record a node writes closes the state it started with;
      an open record may be written again for an acknowledgement. */
  function Tell(t: Trace, r: Record): Trace {
    match t
    case Torn => Torn
    case Untold => if r.end.Some? then Closed(r) else Opened(r)
    case Opened(o) =>
      if r.end.Some? then (if r == o.(end := r.end) then Closed(r) else Torn)
      else (if r == o then Opened(r) else Torn)
    case Closed(c) => if r.end.None? && c.end == Some(r.start) then Opened(r) else Torn
  }

  function TraceOf(log: seq<Event>, n: Node): Trace {
    if log == [] then Untold
    else
      var e, before := log[|log| - 1], TraceOf(log[..|log| - 1], n);
      if e.StateEvent? && e.node == n then Tell(before, e.record) else before
  }

  lemma TraceOfMore(log: seq<Event>, e: Event, n: Node)
    ensures TraceOf(log + [e], n) ==
            if e.StateEvent? && e.node == n then Tell(TraceOf(log, n), e.record) else TraceOf(log, n)
  {
    assert (log + [e])[..|log|] == log;
  }

  lemma {:induction false} ParentingTellsNothing(before: seq<Event>, after: seq<Event>, I: map<Node, int>, end: Option<int>, n: Node)
    requires OnlyParenting(before, after, I, end)
    ensures TraceOf(after, n) == TraceOf(before, n)
    decreases |after|
  {
    if |after| > |before| {
      var shorter := after[..|after| - 1];
      assert before <= shorter;
      ParentingTellsNothing(before, shorter, I, end, n);
    } else {
      assert after == before;
    }
  }

  /** The records written about n lead up to the state it is in. */
  ghost predicate Told(log: seq<Event>, n: Node)
    reads n`current
  {
    TraceOf(log, n) in {Untold, Opened(n.current)}
  }

  /** Everything a run keeps: the links, the nodes, the state records, and the parenting
      records that are open. */
  ghost predicate Consistent(S: set<Node>, stream: Stream)
    reads S, stream
  {
    && Net(S)
    && (forall n :: n in S ==> n.Sound() && Told(stream.events, n))
    && LedgerOf(stream.events).Ledger?
    && Matches(S, Issues(S), LedgerOf(stream.events).open)
  }

  /** A change of state is told without a gap, and tells nothing about other nodes or about
      parenting. */
  lemma StateToldOnce(log: seq<Event>, x: Node, o: Record, r: Record)
    requires TraceOf(log, x) in {Untold, Opened(o)} && o.end.None? && r.end.None?
    ensures var log' := log + [StateEvent(x, o.(end := Some(r.start))), StateEvent(x, r)];
            && LedgerOf(log') == LedgerOf(log)
            && TraceOf(log', x) == Opened(r)
            && forall n :: n != x ==> TraceOf(log', n) == TraceOf(log, n)
  {
    var close, open := StateEvent(x, o.(end := Some(r.start))), StateEvent(x, r);
    assert log + [close, open] == log + [close] + [open];
    LedgerOfMore(log, close);
    LedgerOfMore(log + [close], open);
    TraceOfMore(log, close, x);
    TraceOfMore(log + [close], open, x);
    forall n | n != x ensures TraceOf(log + [close, open], n) == TraceOf(log, n) {
      TraceOfMore(log, close, n);
      TraceOfMore(log + [close], open, n);
    }
  }

  lemma IssueToldOnce(log: seq<Event>, e: Event)
    requires e.IssueEvent?
    ensures LedgerOf(log + [e]) == LedgerOf(log)
    ensures forall n :: TraceOf(log + [e], n) == TraceOf(log, n)
  {
    LedgerOfMore(log, e);
    forall n ensures TraceOf(log + [e], n) == TraceOf(log, n) { TraceOfMore(log, e, n); }
  }

  /** There is an acknowledgement that outlives changes of state. */
  predicate IsSticky(ack: Option<(int, bool)>) { ack.Some? && ack.value.1 }

  /** _generate_state_event. */
  method GenerateStateEvent(x: Node, start: int, newState: int, newDowntime: bool, stream: Stream)
    requires TraceOf(stream.events, x) in {Untold, Opened(x.current)} && x.current.end.None?
    modifies x`current, x`ack, stream
    ensures x.current == Record(start, None, newState, newDowntime)
    ensures x.ack == if IsSticky(old(x.ack)) || old(x.current.inDowntime) != newDowntime then old(x.ack) else None
    ensures stream.events ==
            old(stream.events) + [StateEvent(x, old(x.current).(end := Some(start))), StateEvent(x, x.current)]
    ensures LedgerOf(stream.events) == old(LedgerOf(stream.events))
    ensures TraceOf(stream.events, x) == Opened(x.current)
    ensures forall n :: n != x ==> TraceOf(stream.events, n) == TraceOf(old(stream.events), n)
  {
    hide LedgerOf, TraceOf;
    ghost var log, o := stream.events, x.current;
    stream.events := stream.events + [StateEvent(x, x.current.(end := Some(start)))];
    if x.ack.Some? && !x.ack.value.1 && x.current.inDowntime == newDowntime { x.ack := None; }
    x.current := Record(start, None, newState, newDowntime);
    stream.events := stream.events + [StateEvent(x, x.current)];
    StateToldOnce(log, x, o, x.current);
    assert stream.events == log + [StateEvent(x, o.(end := Some(start))), StateEvent(x, x.current)];
  }

  /** The visits after x got an issue, or before it loses it. */
  method ReportIssue(x: Node, time: int, closed: bool, stream: Stream, ghost S: set<Node>)
    requires Net(S) && x in S && x.issue.Some? && LedgerOf(stream.events).Ledger?
    requires Matches(S, if closed then Issues(S) else Issues(S) - {x}, LedgerOf(stream.events).open)
    modifies stream
    ensures LedgerOf(stream.events).Ledger?
    ensures Matches(S, if closed then Issues(S) - {x} else Issues(S), LedgerOf(stream.events).open)
    ensures OnlyParenting(old(stream.events), stream.events, Issues(S), EndOf(time, closed))
  {
    hide LedgerOf, Matches, Net, ReportedLinked, ReportedSiblings, Pending, Moved, OnlyParenting;
    ghost var I, open := Issues(S), LedgerOf(stream.events).open;
    ghost var siblings := ReportedSiblings(x, x.children, S, I);
    AllPending(closed, x, S, I, open);
    ReportsAreDistinct(x, S, I);
    ghost var log := stream.events;
    ghost var open1 := VisitLinkedNodes(x, time, closed, stream, S, open, siblings);
    ghost var log1 := stream.events;
    ghost var open2 := VisitParentOfChildNodes(x, time, closed, stream, S, open1);
    OnlyParentingTwice(log, log1, stream.events, I, EndOf(time, closed));
    MovedTwice(closed, open, open1, open2, ReportedLinked(x, S, I), siblings, S, I);
    if closed { ClosedMatches(x, S, I, open, open2); } else { OpenedMatches(x, S, I, open, open2); }
  }

  method OpenIssue(x: Node, time: int, stream: Stream, ghost S: set<Node>)
    requires Net(S) && x in S && x.issue.None?
    requires LedgerOf(stream.events).Ledger? && Matches(S, Issues(S), LedgerOf(stream.events).open)
    modifies x`issue, stream
    ensures x.issue == Some(Issue(time, None, if x.ack.Some? then Some(time) else None))
    ensures OnlyParenting(old(stream.events) + [IssueEvent(x, x.issue.value)], stream.events, Issues(S), None)
    ensures LedgerOf(stream.events).Ledger? && Matches(S, Issues(S), LedgerOf(stream.events).open)
    ensures forall n :: n in S ==> TraceOf(stream.events, n) == TraceOf(old(stream.events), n)
  {
    hide LedgerOf, TraceOf, Matches, Net, OnlyParenting;
    ghost var I, log := Issues(S), stream.events;
    x.issue := Some(Issue(time, None, if x.ack.Some? then Some(time) else None));
    stream.events := stream.events + [IssueEvent(x, x.issue.value)];
    ghost var log1 := stream.events;
    IssueToldOnce(log, IssueEvent(x, x.issue.value));
    ghost var I' := Issues(S) - {x};
    assert I' == I && Matches(S, I', LedgerOf(log1).open);
    ReportIssue(x, time, false, stream, S);
    forall n | n in S ensures TraceOf(stream.events, n) == TraceOf(log, n) {
      ParentingTellsNothing(log1, stream.events, Issues(S), None, n);
    }
  }

  method CloseIssue(x: Node, time: int, stream: Stream, ghost S: set<Node>)
    requires Net(S) && x in S && x.issue.Some?
    requires LedgerOf(stream.events).Ledger? && Matches(S, Issues(S), LedgerOf(stream.events).open)
    modifies x`issue, stream
    ensures x.issue.None?
    ensures stream.events != []
    ensures OnlyParenting(old(stream.events), stream.events[..|stream.events| - 1], old(Issues(S)), Some(time))
    ensures stream.events[|stream.events| - 1] == IssueEvent(x, old(x.issue).value.(end := Some(time)))
    ensures LedgerOf(stream.events).Ledger? && Matches(S, Issues(S), LedgerOf(stream.events).open)
    ensures forall n :: n in S ==> TraceOf(stream.events, n) == TraceOf(old(stream.events), n)
  {
    hide LedgerOf, TraceOf, Matches, Net, OnlyParenting;
    ghost var I, log := Issues(S), stream.events;
    x.issue := Some(x.issue.value.(end := Some(time)));
    assert Issues(S) == I;
    ReportIssue(x, time, true, stream, S);
    ghost var log1, J := stream.events, Issues(S) - {x};
    assert Issues(S) == I && OnlyParenting(log, log1, I, Some(time));
    assert Matches(S, J, LedgerOf(log1).open);
    stream.events := stream.events + [IssueEvent(x, x.issue.value)];
    assert stream.events[..|stream.events| - 1] == log1;
    IssueToldOnce(log1, IssueEvent(x, x.issue.value));
    x.issue := None;
    ghost var I' := Issues(S);
    assert I' == J && Matches(S, I', LedgerOf(log1).open);
    forall n | n in S ensures TraceOf(stream.events, n) == TraceOf(log, n) {
      ParentingTellsNothing(log, log1, I, Some(time), n);
    }
  }

  /** manage_status: the issue of the node is opened or closed with everything that it
      makes due, or ends, in the log. */
  method ManageStatus(x: Node, newState: int, time: int, stream: Stream, ghost S: set<Node>)
    requires Consistent(S, stream) && x in S
    modifies x`current, x`ack, x`issue, stream
    ensures Consistent(S, stream)
    ensures x.current.state == newState && x.current.inDowntime == old(x.current.inDowntime)
    ensures newState != old(x.current.state) ==> x.current.start == time
    ensures newState == old(x.current.state) ==> stream.events == old(stream.events) && x.issue == old(x.issue)
    ensures newState != old(x.current.state) ==>
              old(stream.events) + [StateEvent(x, old(x.current).(end := Some(time))), StateEvent(x, x.current)] <= stream.events
    ensures forall i :: |old(stream.events)| <= i < |stream.events| && stream.events[i].ParentEvent? ==>
              if newState == 0 then IsReport(stream.events[i], old(Issues(S)), Some(time))
              else IsReport(stream.events[i], Issues(S), None)
    ensures newState != 0 && old(x.current.state) == 0 ==>
              x.issue.Some? && x.issue.value.start == time && IssueEvent(x, x.issue.value) in stream.events
    ensures newState != 0 && old(x.current.state) != 0 ==> x.issue == old(x.issue)
    ensures newState == 0 && old(x.current.state) != 0 ==>
              IssueEvent(x, old(x.issue).value.(end := Some(time))) in stream.events
    ensures x.ack == if newState == old(x.current.state) || (newState != 0 && IsSticky(old(x.ack)))
                     then old(x.ack) else None
  {
    hide LedgerOf, TraceOf, Matches, Net, Issues;
    var oldState := x.current.state;
    if oldState == newState { return; }
    if newState == 0 || (x.ack.Some? && !x.ack.value.1) { x.ack := None; }
    GenerateStateEvent(x, time, newState, x.current.inDowntime, stream);
    if oldState != 0 && newState == 0 {
      CloseIssue(x, time, stream, S);
    } else if oldState == 0 && newState != 0 {
      ghost var n := |stream.events|;
      OpenIssue(x, time, stream, S);
      assert stream.events[n] == IssueEvent(x, x.issue.value);
    }
  }

  /** manage_ack, on the creation (at `entry`) or the deletion of an acknowledgement. */
  method ManageAck(x: Node, entry: int, sticky: bool, deleted: bool, stream: Stream, ghost S: set<Node>)
    requires Consistent(S, stream) && x in S
    modifies x`ack, x`issue, stream
    ensures Consistent(S, stream) && x.ack == if deleted then None else Some((entry, sticky))
    ensures x.issue == if deleted || old(x.issue).None? then old(x.issue)
                       else Some(old(x.issue).value.(ackTime := Some(entry)))
    ensures stream.events == old(stream.events) +
                             (if deleted || x.issue.None? then [] else [IssueEvent(x, x.issue.value)]) +
                             (if deleted then [] else [StateEvent(x, x.current)])
  {
    hide LedgerOf, TraceOf, Matches, Net, Issues;
    if deleted {
      x.ack := None;
      return;
    }
    x.ack := Some((entry, sticky));
    StampIssue(x, entry, stream, S);
    StateToldAgain(stream.events, x, x.current);
    stream.events := stream.events + [StateEvent(x, x.current)];
  }

  /** The acknowledgement of an open issue. */
  method StampIssue(x: Node, entry: int, stream: Stream, ghost S: set<Node>)
    requires x in S
    modifies x`issue, stream
    ensures x.issue == if old(x.issue).None? then None else Some(old(x.issue).value.(ackTime := Some(entry)))
    ensures Issues(S) == old(Issues(S))
    ensures stream.events == old(stream.events) + if x.issue.None? then [] else [IssueEvent(x, x.issue.value)]
    ensures LedgerOf(stream.events) == LedgerOf(old(stream.events))
    ensures forall n :: TraceOf(stream.events, n) == TraceOf(old(stream.events), n)
  {
    hide LedgerOf, TraceOf;
    if x.issue.Some? {
      x.issue := Some(x.issue.value.(ackTime := Some(entry)));
      IssueToldOnce(stream.events, IssueEvent(x, x.issue.value));
      stream.events := stream.events + [IssueEvent(x, x.issue.value)];
    }
  }

  lemma StateToldAgain(log: seq<Event>, x: Node, r: Record)
    requires TraceOf(log, x) in {Untold, Opened(r)} && r.end.None?
    ensures var log' := log + [StateEvent(x, r)];
            && LedgerOf(log') == LedgerOf(log)
            && TraceOf(log', x) == Opened(r)
            && forall n :: n != x ==> TraceOf(log', n) == TraceOf(log, n)
  {
    LedgerOfMore(log, StateEvent(x, r));
    TraceOfMore(log, StateEvent(x, r), x);
    forall n | n != x ensures TraceOf(log + [StateEvent(x, r)], n) == TraceOf(log, n) {
      TraceOfMore(log, StateEvent(x, r), n);
    }
  }

  /** manage_downtime: the node enters a downtime with the first active one, and leaves it
      with the last. */
  method ManageDowntime(x: Node, id: nat, scheduled: int, started: Option<int>, ended: Option<int>,
                        stream: Stream, ghost S: set<Node>)
    requires Consistent(S, stream) && x in S
    modifies x`current, x`ack, x`downtimes, stream
    ensures Consistent(S, stream) && x.current.state == old(x.current.state)
    ensures x.downtimes == if started.None? then old(x.downtimes)
                           else if ended.None? then old(x.downtimes)[id := scheduled]
                           else old(x.downtimes) - {id}
    ensures started.Some? && ended.None? && old(x.downtimes) == map[] ==> x.current.start == started.value
    ensures started.Some? && ended.Some? && x.downtimes == map[] ==> x.current.start == ended.value
    ensures x.ack == if started.Some? && ended.Some? && old(x.downtimes) == map[] && !IsSticky(old(x.ack))
                     then None else old(x.ack)
  {
    hide LedgerOf, TraceOf, Matches, Net, Issues;
    if started.None? { return; }
    if ended.None? {
      x.downtimes := x.downtimes[id := scheduled];
      assert id in x.downtimes;
      if !x.current.inDowntime {
        GenerateStateEvent(x, started.value, x.current.state, true, stream);
      }
    } else {
      x.downtimes := x.downtimes - {id};
      if x.downtimes == map[] {
        GenerateStateEvent(x, ended.value, x.current.state, false, stream);
      }
    }
  }

  // ------------------------------------------------------------------ links

  /** add_parent. Nothing is written about a new link, so the log stays right if and only
      if the link makes nothing due and ends nothing that was. */
  method AddParent(x: Node, p: Node, stream: Stream, ghost S: set<Node>) returns (ok: bool)
    requires Consistent(S, stream) && x in S && p in S && x != p
    modifies x`parents, p`children
    ensures ok == (p !in old(x.children)) && Net(S)
    ensures x.parents == old(x.parents) + if ok then {p} else {}
    ensures p.children == old(p.children) + if ok then {x} else {}
    ensures ok ==> (Consistent(S, stream) <==>
                      || p in old(x.parents)
                      || x.issue.None?
                      || (exists q :: q in old(x.parents) && q.issue.None?)
                      || (old(x.parents) == {} && p.issue.None?))
  {
    hide LedgerOf, TraceOf, Matches, Net;
    LinksOf(x, S);
    if p in x.children { return false; }
    x.parents := x.parents + {p};
    p.children := p.children + {x};
    ok := true;
    NetKept(x, p, S);
    assert Issues(S) == old(Issues(S));
    ParentLinked(x, p, S, Issues(S), LedgerOf(stream.events).open);
  }

  twostate lemma {:induction false} NetKept(new x: Node, new p: Node, new S: set<Node>)
    requires old(allocated(S)) && x in S && p in S && x != p
    requires old(Net(S)) && p !in old(x.children)
    requires forall n :: n in S ==> n.parents == old(n.parents) + if n == x then {p} else {}
    requires forall n :: n in S ==> n.children == old(n.children) + if n == p then {x} else {}
    requires forall n :: n in S ==> n.dependsOn == old(n.dependsOn) && n.dependedBy == old(n.dependedBy)
    ensures Net(S)
  {}

  /** The parents of x changed, and of x alone. */
  twostate predicate Relinked(new x: Node, new p: Node, new S: set<Node>)
    requires old(allocated(S))
    reads S
  {
    && (forall n :: n in S ==> n.issue == old(n.issue) && n.dependsOn == old(n.dependsOn))
    && (forall n :: n in S ==> n.parents == old(n.parents) + if n == x then {p} else {})
  }

  /** Nothing about x and its parents is due, before or after: the log stays right. */
  twostate lemma {:induction false} LinkHarmless(new x: Node, new p: Node, new S: set<Node>, new I: map<Node, int>,
                                                 new open: map<Key, int>)
    requires old(allocated(S)) && old(allocated(open)) && old(allocated(I)) && x in S && p in S
    requires Relinked(x, p, S) && old(Matches(S, I, open))
    requires x.parents == old(x.parents) ||
             (x !in I || ((exists q :: q in old(x.parents) && q !in I) || (old(x.parents) == {} && p !in I)))
    ensures Matches(S, I, open)
  {
    forall k | k in open ensures k.child in S && k.parent in S && Due(k, I) && StartsAt(k, I, open[k]) {
      assert old(Due(k, I)) && old(StartsAt(k, I, open[k]));
    }
    forall kind, c, q | c in S && q in S && Due(Key(kind, c, q), I) ensures Key(kind, c, q) in open {
      assert old(Due(Key(kind, c, q), I));
    }
  }

  twostate lemma {:induction false} ParentLinked(new x: Node, new p: Node, new S: set<Node>, new I: map<Node, int>,
                                                 new open: map<Key, int>)
    requires old(allocated(S)) && old(allocated(open)) && old(allocated(I)) && x in S && p in S
    requires I == Issues(S) && old(x.parents) <= S
    requires Relinked(x, p, S) && old(Matches(S, I, open))
    ensures Matches(S, I, open) <==>
            || p in old(x.parents)
            || x.issue.None?
            || (exists q :: q in old(x.parents) && q.issue.None?)
            || (old(x.parents) == {} && p.issue.None?)
  {
    hide StartsAt;
    if p in old(x.parents) {
      assert x.parents == old(x.parents);
      LinkHarmless(x, p, S, I, open);
    } else if x.issue.None? || (exists q :: q in old(x.parents) && q.issue.None?) || (old(x.parents) == {} && p.issue.None?) {
      assert x !in I || (exists q :: q in old(x.parents) && q !in I) || (old(x.parents) == {} && p !in I);
      LinkHarmless(x, p, S, I, open);
    } else if p.issue.Some? {
      assert Due(Key(Parenthood, x, p), I) && !old(Due(Key(Parenthood, x, p), I));
      assert Key(Parenthood, x, p) !in open;
    } else {
      var q :| q in old(x.parents);
      assert old(Due(Key(Parenthood, x, q), I)) && !Due(Key(Parenthood, x, q), I);
      assert Key(Parenthood, x, q) in open;
    }
  }
}

/** lua/src/macro_cache.cc: the cache of names the Lua scripts look up. It is filled by the
    events that pass, saved when the program stops, and rebuilt by writing the saved events
    into an empty cache. */
module MacroCache {
  import PersistentCache
  import Options

  /** The thirteen kinds of entry, in the order in which they are saved. */
  datatype Event =
    | Instance(poller: nat, name: string)
    | Host(host: nat, poller: nat, name: string)
    | HostGroup(group: nat, enabled: bool, name: string)
    | HostGroupMember(host: nat, group: nat, enabled: bool)
    | Service(host: nat, service: nat, name: string)
    | ServiceGroup(group: nat, enabled: bool, name: string)
    | ServiceGroupMember(host: nat, service: nat, group: nat, enabled: bool)
    | IndexMapping(index: nat, host: nat, service: nat)
    | MetricMapping(metric: nat, index: nat)
    | Ba(ba: nat, name: string)
    | BaBvRelation(ba: nat, bv: nat)
    | Bv(bv: nat, name: string)
    | CustomVariable(host: nat, service: nat, criticality: bool, level: int)
    | TruncateTables(started: bool)
    | Other

  /** Where an event is kept: the map and the key in it. */
  datatype Key =
    | InstanceKey(poller: nat)
    | HostKey(host: nat)
    | HostGroupKey(group: nat)
    | HostGroupMemberKey(host: nat, group: nat)
    | ServiceKey(host: nat, service: nat)
    | ServiceGroupKey(group: nat)
    | ServiceGroupMemberKey(host: nat, service: nat, group: nat)
    | IndexKey(index: nat)
    | MetricKey(metric: nat)
    | BaKey(ba: nat)
    | BvKey(bv: nat)
    | VariableKey(host: nat, service: nat)
    | NoKey

  /** The twelve maps of the cache as one map over their keys, and the multimap of the
      relations between BAs and business views. */
  datatype Cache = Cache(entries: map<Key, Event>, relations: multiset<Event>)

  const EMPTY := Cache(map[], multiset{})

  function KeyOf(e: Event): Key {
    match e
    case Instance(p, _) => InstanceKey(p)
    case Host(h, _, _) => HostKey(h)
    case HostGroup(g, _, _) => HostGroupKey(g)
    case HostGroupMember(h, g, _) => HostGroupMemberKey(h, g)
    case Service(h, s, _) => ServiceKey(h, s)
    case ServiceGroup(g, _, _) => ServiceGroupKey(g)
    case ServiceGroupMember(h, s, g, _) => ServiceGroupMemberKey(h, s, g)
    case IndexMapping(i, _, _) => IndexKey(i)
    case MetricMapping(m, _) => MetricKey(m)
    case Ba(b, _) => BaKey(b)
    case Bv(b, _) => BvKey(b)
    case CustomVariable(h, s, _, _) => VariableKey(h, s)
    case _ => NoKey
  }

  function Rank(e: Event): nat {
    match e
    case Instance(_, _) => 0 case Host(_, _, _) => 1 case HostGroup(_, _, _) => 2
    case HostGroupMember(_, _, _) => 3 case Service(_, _, _) => 4 case ServiceGroup(_, _, _) => 5
    case ServiceGroupMember(_, _, _, _) => 6 case IndexMapping(_, _, _) => 7 case MetricMapping(_, _) => 8
    case Ba(_, _) => 9 case BaBvRelation(_, _) => 10 case Bv(_, _) => 11 case CustomVariable(_, _, _, _) => 12
    case _ => 13
  }

  /** The events kept under their key: disabled groups and variables without a level are
      not, and a disabled membership removes the entry. */
  predicate Kept(e: Event) {
    match e
    case HostGroup(_, enabled, _) => enabled
    case HostGroupMember(_, _, enabled) => enabled
    case ServiceGroup(_, enabled, _) => enabled
    case ServiceGroupMember(_, _, _, enabled) => enabled
    case CustomVariable(_, _, criticality, level) => criticality && level != 0
    case BaBvRelation(_, _) => false
    case TruncateTables(_) => false
    case Other => false
    case _ => true
  }

  predicate IsHostOf(c: Cache, h: nat, poller: nat) {
    HostKey(h) in c.entries && c.entries[HostKey(h)].Host? && c.entries[HostKey(h)].poller == poller
  }

  /** What an instance event removes: the hosts of its poller, with their group memberships
      and services. */
  predicate Belongs(c: Cache, k: Key, poller: nat) {
    (k.HostKey? || k.HostGroupMemberKey? || k.ServiceKey?) && IsHostOf(c, k.host, poller)
  }

  function WithoutPoller(c: Cache, poller: nat): Cache {
    c.(entries := map k | k in c.entries && !Belongs(c, k, poller) :: c.entries[k])
  }

  function Put(c: Cache, e: Event): Cache { c.(entries := c.entries[KeyOf(e) := e]) }

  /** macro_cache::write. */
  function Write(c: Cache, e: Event): Cache {
    match e
    case Instance(poller, _) => Put(WithoutPoller(c, poller), e)
    case HostGroupMember(_, _, enabled) => if enabled then Put(c, e) else c.(entries := c.entries - {KeyOf(e)})
    case ServiceGroupMember(_, _, _, enabled) => if enabled then Put(c, e) else c.(entries := c.entries - {KeyOf(e)})
    case BaBvRelation(_, _) => c.(relations := c.relations + multiset{e})
    case TruncateTables(started) =>
      if started then Cache(map k | k in c.entries && !k.BaKey? && !k.BvKey? :: c.entries[k], multiset{}) else c
    case _ => if Kept(e) then Put(c, e) else c
  }

  /** Every entry is kept where it belongs. */
  ghost predicate Valid(c: Cache) {
    && (forall k :: k in c.entries ==> KeyOf(c.entries[k]) == k && Kept(c.entries[k]))
    && (forall e :: e in c.relations ==> e.BaBvRelation?)
  }

  lemma WriteKeepsValid(c: Cache, e: Event)
    requires Valid(c)
    ensures Valid(Write(c, e))
  {}

  /** Two events are about the same entry exactly if they are of one kind and have the same
      ids. */
  lemma SameEntryIff(a: Event, b: Event)
    requires KeyOf(a) != NoKey && KeyOf(b) != NoKey
    ensures KeyOf(a) == KeyOf(b) <==>
            match (a, b)
            case (Instance(p, _), Instance(q, _)) => p == q
            case (Host(h, _, _), Host(i, _, _)) => h == i
            case (HostGroup(g, _, _), HostGroup(i, _, _)) => g == i
            case (HostGroupMember(h, g, _), HostGroupMember(i, j, _)) => h == i && g == j
            case (Service(h, s, _), Service(i, t, _)) => h == i && s == t
            case (ServiceGroup(g, _, _), ServiceGroup(i, _, _)) => g == i
            case (ServiceGroupMember(h, s, g, _), ServiceGroupMember(i, t, j, _)) => h == i && s == t && g == j
            case (IndexMapping(x, _, _), IndexMapping(y, _, _)) => x == y
            case (MetricMapping(m, _), MetricMapping(n, _)) => m == n
            case (Ba(x, _), Ba(y, _)) => x == y
            case (Bv(x, _), Bv(y, _)) => x == y
            case (CustomVariable(h, s, _, _), CustomVariable(i, t, _, _)) => h == i && s == t
            case _ => false
  {}

  /** What an event removes besides its own entry: an instance the hosts of its poller with
      their memberships and services, and a truncation the BAs and the views. */
  lemma OthersAreKept(c: Cache, e: Event, k: Key)
    requires Valid(c) && k != KeyOf(e)
    ensures k in Write(c, e).entries <==>
            && k in c.entries
            && (e.Instance? && (k.HostKey? || k.HostGroupMemberKey? || k.ServiceKey?) && HostKey(k.host) in c.entries ==>
                  c.entries[HostKey(k.host)].poller != e.poller)
            && (e == TruncateTables(true) ==> !k.BaKey? && !k.BvKey?)
    ensures k in Write(c, e).entries ==> Write(c, e).entries[k] == c.entries[k]
  {
    hide Kept;
    if e.Instance? {
      hide KeyOf;
      WriteInstance(c, e);
      InstanceStays(e, c);
      BelongsIff(c, k, e.poller);
    }
  }

  lemma BelongsIff(c: Cache, k: Key, poller: nat)
    requires Valid(c)
    ensures Belongs(c, k, poller) <==>
            && (k.HostKey? || k.HostGroupMemberKey? || k.ServiceKey?)
            && HostKey(k.host) in c.entries && c.entries[HostKey(k.host)].poller == poller
  {
    if (k.HostKey? || k.HostGroupMemberKey? || k.ServiceKey?) && HostKey(k.host) in c.entries {
      assert KeyOf(c.entries[HostKey(k.host)]) == HostKey(k.host);
    }
  }

  /** A relation is counted once more, and a truncation forgets them all. */
  lemma RelationsAre(c: Cache, e: Event)
    ensures Write(c, e).relations ==
            if e.BaBvRelation? then c.relations + multiset{e} else if e == TruncateTables(true) then multiset{} else c.relations
  {}

  /** The event's own entry: it is there afterwards, except that a disabled membership
      removes it, and a disabled group or a variable that is no criticality or has no level
      leaves it as it was. */
  lemma OwnEntry(c: Cache, e: Event)
    requires KeyOf(e) != NoKey
    ensures var after, k := Write(c, e).entries, KeyOf(e);
            if (e.HostGroupMember? || e.ServiceGroupMember?) && !e.enabled then k !in after
            else if ((e.HostGroup? || e.ServiceGroup?) && !e.enabled) || (e.CustomVariable? && (!e.criticality || e.level == 0))
            then (k in after <==> k in c.entries) && (k in after ==> after[k] == c.entries[k])
            else k in after && after[k] == e
  {}

  function Replay(c: Cache, events: seq<Event>): Cache {
    if events == [] then c else Write(Replay(c, events[..|events| - 1]), events[|events| - 1])
  }

  lemma {:induction false} ReplayIsValid(events: seq<Event>)
    ensures Valid(Replay(EMPTY, events))
  {
    if events != [] {
      ReplayIsValid(events[..|events| - 1]);
      WriteKeepsValid(Replay(EMPTY, events[..|events| - 1]), events[|events| - 1]);
    }
  }

  // ------------------------------------------------------------------ saving

  function Relations(events: seq<Event>): multiset<Event> {
    if events == [] then multiset{}
    else
      var e, more := events[|events| - 1], Relations(events[..|events| - 1]);
      if e.BaBvRelation? then more + multiset{e} else more
  }

  /** The events list the cache: its entries in the order of their kinds, and its
      relations as often as it holds them. */
  ghost predicate Lists(events: seq<Event>, c: Cache) {
    && (forall i, j :: 0 <= i < j < |events| ==> Rank(events[i]) <= Rank(events[j]))
    && (forall i :: 0 <= i < |events| && !events[i].BaBvRelation? ==>
          KeyOf(events[i]) in c.entries && c.entries[KeyOf(events[i])] == events[i])
    && (forall k :: k in c.entries ==> c.entries[k] in events)
    && Relations(events) == c.relations
  }

  /** The events are all entries and relations of the cache, in any order. */
  ghost predicate Enumerates(events: seq<Event>, c: Cache) {
    && (forall i :: 0 <= i < |events| && !events[i].BaBvRelation? ==>
          KeyOf(events[i]) in c.entries && c.entries[KeyOf(events[i])] == events[i])
    && (forall k :: k in c.entries ==> c.entries[k] in events)
    && Relations(events) == c.relations
  }

  /** No instance comes after a host of its poller. */
  ghost predicate InstancesBeforeHosts(events: seq<Event>) {
    forall i, j :: 0 <= i < j < |events| && events[i].Host? && events[j].Instance? ==>
      events[i].poller != events[j].poller
  }

  lemma ListsEnumerates(events: seq<Event>, c: Cache)
    requires Lists(events, c)
    ensures Enumerates(events, c) && InstancesBeforeHosts(events)
  {
    hide KeyOf, Relations;
    forall i, j | 0 <= i < j < |events| && events[i].Host? ensures !events[j].Instance? {
      assert Rank(events[i]) <= Rank(events[j]);
    }
  }

  /** r holds the first n events of the list, and they agree with c. */
  ghost predicate HoldsPart(r: Cache, events: seq<Event>, n: nat, c: Cache)
    requires n <= |events|
  {
    && (forall k :: k in r.entries ==> k in c.entries && r.entries[k] == c.entries[k])
    && (forall k :: k in r.entries ==> r.entries[k] in events[..n])
    && (forall i :: 0 <= i < n && !events[i].BaBvRelation? ==> KeyOf(events[i]) in r.entries)
    && r.relations == Relations(events[..n])
  }

  /** After a part of the list was replayed the cache holds that part. */
  lemma {:induction false} ReplayPart(events: seq<Event>, c: Cache, n: nat)
    requires Valid(c) && Enumerates(events, c) && InstancesBeforeHosts(events) && n <= |events|
    ensures HoldsPart(Replay(EMPTY, events[..n]), events, n, c)
  {
    if n > 0 {
      hide Valid, Enumerates, InstancesBeforeHosts, HoldsPart, Write;
      var e, before := events[n - 1], Replay(EMPTY, events[..n - 1]);
      assert events[..n][..n - 1] == events[..n - 1] && events[..n][n - 1] == e;
      ReplayPart(events, c, n - 1);
      if e.Instance? { NothingToLose(events, c, n - 1, before); }
      ReplayStep(events, c, n, before);
    }
  }

  lemma NothingToLose(events: seq<Event>, c: Cache, n: nat, r: Cache)
    requires InstancesBeforeHosts(events) && n < |events| && events[n].Instance?
    requires HoldsPart(r, events, n, c)
    ensures WithoutPoller(r, events[n].poller).entries == r.entries
  {
    forall k | k in r.entries ensures !Belongs(r, k, events[n].poller) {
      if k.HostKey? || k.HostGroupMemberKey? || k.ServiceKey? {
        NoHostYet(events, n, r, k.host, events[n].poller);
      }
    }
  }

  /** When an instance is replayed there is no host of its poller in the cache to lose. */
  lemma NoHostYet(events: seq<Event>, n: nat, r: Cache, h: nat, poller: nat)
    requires InstancesBeforeHosts(events) && n < |events| && events[n].Instance? && events[n].poller == poller
    requires forall k :: k in r.entries ==> r.entries[k] in events[..n]
    ensures !IsHostOf(r, h, poller)
  {
    forall k | k in r.entries && r.entries[k].Host? ensures r.entries[k].poller != poller {
      var i :| 0 <= i < n && events[..n][i] == r.entries[k];
      assert events[i] == r.entries[k];
    }
  }

  lemma ReplayStep(events: seq<Event>, c: Cache, n: nat, before: Cache)
    requires Valid(c) && Enumerates(events, c) && 0 < n <= |events|
    requires HoldsPart(before, events, n - 1, c)
    requires events[n - 1].Instance? ==> WithoutPoller(before, events[n - 1].poller).entries == before.entries
    ensures HoldsPart(Write(before, events[n - 1]), events, n, c)
  {
    hide Write, KeyOf, Kept, Replay, WithoutPoller, Relations;
    var e := events[n - 1];
    assert events[..n] == events[..n - 1] + [e];
    RelationsMore(events[..n - 1], e);
    if e.BaBvRelation? {
      WriteRelation(before, e);
    } else {
      assert c.entries[KeyOf(e)] == e && Kept(e);
      WriteKept(before, e);
    }
  }

  lemma WriteKept(c: Cache, e: Event)
    requires Kept(e)
    requires e.Instance? ==> WithoutPoller(c, e.poller).entries == c.entries
    ensures Write(c, e) == Put(c, e) && !e.BaBvRelation?
  {}

  lemma WriteRelation(c: Cache, e: Event)
    requires e.BaBvRelation?
    ensures Write(c, e) == Cache(c.entries, c.relations + multiset{e})
  {}

  lemma WholeIsRebuilt(events: seq<Event>, c: Cache, r: Cache)
    requires Valid(c) && Enumerates(events, c) && HoldsPart(r, events, |events|, c)
    ensures r == c
  {
    hide KeyOf, Kept, Relations;
    assert events[..|events|] == events;
    forall k | k in c.entries ensures k in r.entries {
      var i :| 0 <= i < |events| && events[i] == c.entries[k];
      assert KeyOf(events[i]) == k;
      KeptIsNoRelation(events[i]);
    }
    assert r.entries == c.entries;
  }

  /** A cache that was saved and is replayed is the cache that was saved. */
  lemma ReplayOfList(events: seq<Event>, c: Cache)
    requires Valid(c) && Lists(events, c)
    ensures Replay(EMPTY, events) == c
  {
    hide Replay, Valid, Lists, Enumerates, InstancesBeforeHosts, HoldsPart;
    ListsEnumerates(events, c);
    ReplayPart(events, c, |events|);
    assert events[..|events|] == events;
    WholeIsRebuilt(events, c, Replay(EMPTY, events));
  }

  lemma KeptIsNoRelation(e: Event)
    ensures Kept(e) ==> !e.BaBvRelation?
  {}

  // ------------------------------------------------------ any order of saving

  /** No entry is listed twice. */
  ghost predicate DistinctKeys(events: seq<Event>) {
    forall i, j :: 0 <= i < j < |events| && !events[i].BaBvRelation? && !events[j].BaBvRelation? ==>
      KeyOf(events[i]) != KeyOf(events[j])
  }

  predicate Within(r: Cache, c: Cache) {
    forall k :: k in r.entries ==> k in c.entries && r.entries[k] == c.entries[k]
  }

  lemma WriteInstance(c: Cache, e: Event)
    requires e.Instance?
    ensures Write(c, e) == Put(WithoutPoller(c, e.poller), e) && !e.BaBvRelation?
  {}

  /** Whatever the order, nothing but entries of c comes up. */
  lemma {:induction false} ReplayWithin(events: seq<Event>, c: Cache, n: nat)
    requires Valid(c) && Enumerates(events, c) && n <= |events|
    ensures Within(Replay(EMPTY, events[..n]), c)
  {
    hide Write, KeyOf, Kept, Relations;
    if n > 0 {
      var e, before := events[n - 1], Replay(EMPTY, events[..n - 1]);
      assert events[..n][..n - 1] == events[..n - 1] && events[..n][n - 1] == e;
      ReplayWithin(events, c, n - 1);
      if e.BaBvRelation? {
        WriteRelation(before, e);
      } else {
        assert c.entries[KeyOf(e)] == e && Kept(e);
        if e.Instance? { WriteInstance(before, e); } else { WriteKept(before, e); }
      }
    }
  }

  /** A host that an instance of its poller comes after is lost for good. */
  lemma {:induction false} HostIsLost(events: seq<Event>, c: Cache, i: nat, j: nat, n: nat)
    requires Valid(c) && Enumerates(events, c) && DistinctKeys(events)
    requires i < j < n <= |events| && events[i].Host? && events[j].Instance? && events[i].poller == events[j].poller
    ensures HostKey(events[i].host) !in Replay(EMPTY, events[..n]).entries
  {
    hide Write, Kept, Relations, Enumerates, DistinctKeys;
    var e, before := events[n - 1], Replay(EMPTY, events[..n - 1]);
    assert events[..n][..n - 1] == events[..n - 1] && events[..n][n - 1] == e;
    EventOf(events, c, i);
    EventOf(events, c, n - 1);
    if n - 1 == j {
      ReplayWithin(events, c, j);
      WriteInstance(before, e);
      if HostKey(events[i].host) in before.entries {
        assert before.entries[HostKey(events[i].host)] == events[i];
        assert Belongs(before, HostKey(events[i].host), e.poller);
      }
    } else {
      HostIsLost(events, c, i, j, n - 1);
      if e.BaBvRelation? {
        WriteRelation(before, e);
      } else {
        KeysDiffer(events, i, n - 1);
        if e.Instance? { WriteInstance(before, e); } else { WriteKept(before, e); }
      }
    }
  }

  lemma EventOf(events: seq<Event>, c: Cache, i: nat)
    requires Valid(c) && Enumerates(events, c) && i < |events|
    ensures !events[i].BaBvRelation? ==>
              KeyOf(events[i]) in c.entries && c.entries[KeyOf(events[i])] == events[i] && Kept(events[i])
  {
    hide KeyOf, Kept;
  }

  lemma KeysDiffer(events: seq<Event>, i: nat, j: nat)
    requires DistinctKeys(events) && i < j < |events|
    requires !events[i].BaBvRelation? && !events[j].BaBvRelation?
    ensures KeyOf(events[i]) != KeyOf(events[j])
  {
    hide KeyOf;
  }

  /** A valid cache listed in any order, each entry once, is rebuilt by the replay if and
      only if no instance comes after a host of its poller. */
  lemma RebuiltIff(events: seq<Event>, c: Cache)
    requires Valid(c) && Enumerates(events, c) && DistinctKeys(events)
    ensures Replay(EMPTY, events) == c <==> InstancesBeforeHosts(events)
  {
    hide Replay, Valid, Enumerates, DistinctKeys, HoldsPart, KeyOf;
    assert events[..|events|] == events;
    if InstancesBeforeHosts(events) {
      ReplayPart(events, c, |events|);
      WholeIsRebuilt(events, c, Replay(EMPTY, events));
    } else {
      var i, j :| 0 <= i < j < |events| && events[i].Host? && events[j].Instance? && events[i].poller == events[j].poller;
      HostIsLost(events, c, i, j, |events|);
      EventOf(events, c, i);
      HostKeyOf(events[i]);
    }
  }

  lemma HostKeyOf(e: Event)
    requires e.Host?
    ensures KeyOf(e) == HostKey(e.host) && !e.BaBvRelation?
  {}

  /** The shortest list that is not: an instance saved after its host erases it. */
  lemma InstanceAfterHost()
    ensures Replay(EMPTY, [Host(5, 1, "h"), Instance(1, "p")]) == Cache(map[InstanceKey(1) := Instance(1, "p")], multiset{})
  {
    var events := [Host(5, 1, "h"), Instance(1, "p")];
    assert events[..1] == [Host(5, 1, "h")] && events[..1][..0] == [];
    assert Replay(EMPTY, events[..1][..0]) == EMPTY;
    var c := Replay(EMPTY, events[..1]);
    assert c == Put(EMPTY, Host(5, 1, "h"));
    assert Belongs(c, HostKey(5), 1);
  }

  // ------------------------------------------- a list replayed over a cache

  /** An entry of l that goes with an instance among the first n events. */
  predicate LostTo(l: Cache, k: Key, events: seq<Event>, n: nat)
    requires n <= |events|
  {
    exists i :: 0 <= i < n && events[i].Instance? && Belongs(l, k, events[i].poller)
  }

  predicate ListedIn(k: Key, events: seq<Event>, n: nat)
    requires n <= |events|
  {
    exists i :: 0 <= i < n && !events[i].BaBvRelation? && KeyOf(events[i]) == k
  }

  /** r is l with the first n events of a list of c written over it. */
  ghost predicate HoldsOver(r: Cache, l: Cache, events: seq<Event>, n: nat, c: Cache)
    requires n <= |events|
  {
    && (forall k :: k in r.entries <==> ListedIn(k, events, n) || (k in l.entries && !LostTo(l, k, events, n)))
    && (forall k :: ListedIn(k, events, n) ==> k in c.entries && k in r.entries && r.entries[k] == c.entries[k])
    && (forall k :: k in r.entries && !ListedIn(k, events, n) ==> k in l.entries && r.entries[k] == l.entries[k])
    && r.relations == l.relations + Relations(events[..n])
  }

  lemma ListedMore(k: Key, events: seq<Event>, n: nat)
    requires n < |events|
    ensures ListedIn(k, events, n + 1) <==>
            ListedIn(k, events, n) || (!events[n].BaBvRelation? && KeyOf(events[n]) == k)
  {
    hide KeyOf;
    if i :| 0 <= i < n && !events[i].BaBvRelation? && KeyOf(events[i]) == k {}
  }

  lemma LostMore(l: Cache, k: Key, events: seq<Event>, n: nat)
    requires n < |events|
    ensures LostTo(l, k, events, n + 1) <==>
            LostTo(l, k, events, n) || (events[n].Instance? && Belongs(l, k, events[n].poller))
  {
    hide Belongs;
    if i :| 0 <= i < n && events[i].Instance? && Belongs(l, k, events[i].poller) {}
  }

  /** While instances are replayed, what belongs to a poller is what belonged to it in l and
      is not lost yet. */
  lemma BelongsStill(r: Cache, l: Cache, events: seq<Event>, n: nat, c: Cache, k: Key, poller: nat)
    requires Lists(events, c) && n < |events| && events[n].Instance?
    requires HoldsOver(r, l, events, n, c) && !LostTo(l, k, events, n)
    ensures Belongs(r, k, poller) <==> Belongs(l, k, poller)
  {
    hide Relations, Lists;
    if k.HostKey? || k.HostGroupMemberKey? || k.ServiceKey? {
      var h := HostKey(k.host);
      NoHostListed(events, c, n, h);
      LostWithHost(l, k, events, n);
      assert h in r.entries <==> h in l.entries;
    }
  }

  lemma LostWithHost(l: Cache, k: Key, events: seq<Event>, n: nat)
    requires n <= |events| && (k.HostKey? || k.HostGroupMemberKey? || k.ServiceKey?)
    ensures LostTo(l, HostKey(k.host), events, n) ==> LostTo(l, k, events, n)
  {
    if i :| 0 <= i < n && events[i].Instance? && Belongs(l, HostKey(k.host), events[i].poller) {
      assert Belongs(l, k, events[i].poller);
    }
  }

  lemma NoHostListed(events: seq<Event>, c: Cache, n: nat, h: Key)
    requires Lists(events, c) && n < |events| && events[n].Instance? && h.HostKey?
    ensures !ListedIn(h, events, n)
  {
    forall i | 0 <= i < n ensures events[i].Instance? {
      assert Rank(events[i]) <= Rank(events[n]);
    }
  }

  lemma OverStepInstance(r: Cache, l: Cache, events: seq<Event>, n: nat, c: Cache)
    requires Valid(c) && Lists(events, c) && n < |events| && events[n].Instance?
    requires HoldsOver(r, l, events, n, c)
    ensures HoldsOver(Write(r, events[n]), l, events, n + 1, c)
  {
    hide Write, Lists, LostTo, ListedIn, Belongs, Kept, KeyOf, Relations;
    var e := events[n];
    var after := Write(r, e);
    WriteInstance(r, e);
    ListsEnumerates(events, c);
    EventOf(events, c, n);
    assert events[..n + 1] == events[..n] + [e];
    RelationsMore(events[..n], e);
    InstanceStays(e, c);
    forall k
      ensures k in after.entries <==> ListedIn(k, events, n + 1) || (k in l.entries && !LostTo(l, k, events, n + 1))
      ensures k in after.entries && k != KeyOf(e) ==> k in r.entries && after.entries[k] == r.entries[k]
      ensures ListedIn(k, events, n + 1) ==> k == KeyOf(e) || ListedIn(k, events, n)
    {
      ListedMore(k, events, n);
      LostMore(l, k, events, n);
      if k != KeyOf(e) && k in r.entries {
        if ListedIn(k, events, n) {
          ListedAreInstances(events, c, n, k);
          InstanceDoesNotBelong(r, k, e.poller);
        } else {
          BelongsStill(r, l, events, n, c, k, e.poller);
        }
      }
    }
    forall k ensures ListedIn(k, events, n) ==> ListedIn(k, events, n + 1) { ListedMore(k, events, n); }
    assert ListedIn(KeyOf(e), events, n + 1) by { ListedMore(KeyOf(e), events, n); }
  }

  lemma InstanceStays(e: Event, c: Cache)
    requires e.Instance?
    ensures !e.BaBvRelation? && KeyOf(e) == InstanceKey(e.poller)
  {}

  lemma InstanceDoesNotBelong(r: Cache, k: Key, poller: nat)
    requires k.InstanceKey?
    ensures !Belongs(r, k, poller)
  {}

  lemma ListedAreInstances(events: seq<Event>, c: Cache, n: nat, k: Key)
    requires Lists(events, c) && n < |events| && events[n].Instance? && ListedIn(k, events, n)
    ensures k.InstanceKey?
  {
    forall i | 0 <= i < n ensures events[i].Instance? {
      assert Rank(events[i]) <= Rank(events[n]);
    }
  }

  lemma OverStepOther(r: Cache, l: Cache, events: seq<Event>, n: nat, c: Cache)
    requires Valid(c) && Lists(events, c) && n < |events| && !events[n].Instance?
    requires HoldsOver(r, l, events, n, c)
    ensures HoldsOver(Write(r, events[n]), l, events, n + 1, c)
  {
    hide Write, Lists, LostTo, ListedIn, Belongs, Kept, KeyOf, Relations, HoldsOver, Valid;
    var e := events[n];
    forall k
      ensures ListedIn(k, events, n + 1) <==> ListedIn(k, events, n) || (!e.BaBvRelation? && KeyOf(e) == k)
      ensures LostTo(l, k, events, n + 1) <==> LostTo(l, k, events, n)
    {
      ListedMore(k, events, n);
      LostMore(l, k, events, n);
    }
    ListsEnumerates(events, c);
    EventOf(events, c, n);
    assert events[..n + 1] == events[..n] + [e];
    RelationsMore(events[..n], e);
    if e.BaBvRelation? {
      WriteRelation(r, e);
      OverStepRelation(r, l, events, n, c);
    } else {
      WriteKept(r, e);
      OverStepKept(r, l, events, n, c);
    }
  }

  lemma OverStepRelation(r: Cache, l: Cache, events: seq<Event>, n: nat, c: Cache)
    requires n < |events| && HoldsOver(r, l, events, n, c)
    requires forall k :: ListedIn(k, events, n + 1) <==> ListedIn(k, events, n)
    requires forall k :: LostTo(l, k, events, n + 1) <==> LostTo(l, k, events, n)
    requires Relations(events[..n + 1]) == Relations(events[..n]) + multiset{events[n]}
    ensures HoldsOver(Cache(r.entries, r.relations + multiset{events[n]}), l, events, n + 1, c)
  {
    hide LostTo, ListedIn, Relations;
    assert l.relations + Relations(events[..n]) + multiset{events[n]} == l.relations + Relations(events[..n + 1]);
  }

  lemma OverStepKept(r: Cache, l: Cache, events: seq<Event>, n: nat, c: Cache)
    requires n < |events| && HoldsOver(r, l, events, n, c)
    requires KeyOf(events[n]) in c.entries && c.entries[KeyOf(events[n])] == events[n]
    requires forall k :: ListedIn(k, events, n + 1) <==> ListedIn(k, events, n) || KeyOf(events[n]) == k
    requires forall k :: LostTo(l, k, events, n + 1) <==> LostTo(l, k, events, n)
    requires Relations(events[..n + 1]) == Relations(events[..n])
    ensures HoldsOver(Put(r, events[n]), l, events, n + 1, c)
  {
    hide LostTo, ListedIn, Relations, KeyOf;
    assert l.relations + Relations(events[..n]) == l.relations + Relations(events[..n + 1]);
  }

  lemma {:induction false} ReplayOver(l: Cache, events: seq<Event>, c: Cache, n: nat)
    requires Valid(c) && Lists(events, c) && n <= |events|
    ensures HoldsOver(Replay(l, events[..n]), l, events, n, c)
  {
    if n > 0 {
      hide Valid, Lists, HoldsOver, Write;
      assert events[..n][..n - 1] == events[..n - 1] && events[..n][n - 1] == events[n - 1];
      ReplayOver(l, events, c, n - 1);
      var before := Replay(l, events[..n - 1]);
      if events[n - 1].Instance? {
        OverStepInstance(before, l, events, n - 1, c);
      } else {
        OverStepOther(before, l, events, n - 1, c);
      }
    } else {
      assert l.relations + multiset{} == l.relations;
    }
  }

  /** An entry of l that an instance of c takes with it: it, or its host, is of that poller. */
  ghost predicate Lost(l: Cache, k: Key, c: Cache) {
    exists poller :: InstanceKey(poller) in c.entries && Belongs(l, k, poller)
  }

  /** Nothing of l outlives a list of c replayed over it: l has no relation, and each of its
      entries is overwritten or goes with an instance. */
  ghost predicate Harmless(l: Cache, c: Cache) {
    l.relations == multiset{} && forall k :: k in l.entries ==> k in c.entries || Lost(l, k, c)
  }

  lemma LostToAll(l: Cache, k: Key, events: seq<Event>, c: Cache)
    requires Valid(c) && Lists(events, c)
    ensures LostTo(l, k, events, |events|) <==> Lost(l, k, c)
    ensures ListedIn(k, events, |events|) <==> k in c.entries
  {
    hide Belongs, Relations;
    if poller :| InstanceKey(poller) in c.entries && Belongs(l, k, poller) {
      var e := c.entries[InstanceKey(poller)];
      assert KeyOf(e) == InstanceKey(poller);
      var i :| 0 <= i < |events| && events[i] == e;
    }
    if i :| 0 <= i < |events| && events[i].Instance? && Belongs(l, k, events[i].poller) {
      assert KeyOf(events[i]) == InstanceKey(events[i].poller);
    }
    if k in c.entries {
      var i :| 0 <= i < |events| && events[i] == c.entries[k];
      KeptIsNoRelation(events[i]);
    }
  }

  /** A saved list replayed over any cache gives the saved cache if and only if nothing of
      that cache outlives it. */
  lemma ReplayOverIff(l: Cache, events: seq<Event>, c: Cache)
    requires Valid(c) && Lists(events, c)
    ensures Replay(l, events) == c <==> Harmless(l, c)
  {
    hide Replay, Lists, LostTo, ListedIn, Lost, KeyOf, Kept, Relations;
    ReplayOver(l, events, c, |events|);
    assert events[..|events|] == events;
    var r := Replay(l, events);
    forall k
      ensures LostTo(l, k, events, |events|) <==> Lost(l, k, c)
      ensures ListedIn(k, events, |events|) <==> k in c.entries
    {
      LostToAll(l, k, events, c);
    }
    ListsEnumerates(events, c);
    NoRelationsLeft(l.relations, c.relations);
    assert r.relations == l.relations + c.relations;
    assert forall k :: k in l.entries && !Lost(l, k, c) ==> k in r.entries;
    if Harmless(l, c) { assert r.entries == c.entries; }
  }

  lemma NoRelationsLeft(a: multiset<Event>, b: multiset<Event>)
    ensures a + b == b <==> a == multiset{}
  {
    if a + b == b {
      forall e ensures a[e] == 0 { assert (a + b)[e] == a[e] + b[e]; }
    }
  }

  lemma {:induction false} ReplayConcat(c: Cache, a: seq<Event>, b: seq<Event>)
    ensures Replay(c, a + b) == Replay(Replay(c, a), b)
    decreases |b|
  {
    hide Write;
    if b == [] {
      assert a + b == a;
    } else {
      assert (a + b)[..|a + b| - 1] == a + b[..|b| - 1];
      ReplayConcat(c, a, b[..|b| - 1]);
    }
  }

  // ------------------------------------------------------------- the object

  function Without(c: Cache, gone: set<Key>): Cache { c.(entries := c.entries - gone) }

  function HostsIn(c: Cache, hosts: set<nat>): set<Key> {
    set k | k in c.entries && k.HostKey? && k.host in hosts
  }

  function MembersIn(c: Cache, hosts: set<nat>): set<Key> {
    set k | k in c.entries && k.HostGroupMemberKey? && k.host in hosts
  }

  function ServicesIn(c: Cache, hosts: set<nat>): set<Key> {
    set k | k in c.entries && k.ServiceKey? && k.host in hosts
  }

  /** The three loops of an instance event remove what belongs to its poller. */
  lemma RemovedTogether(c: Cache, poller: nat, removed: set<nat>)
    requires forall h :: h in removed <==> IsHostOf(c, h, poller)
    ensures var a := Without(c, HostsIn(c, removed));
            var b := Without(a, MembersIn(a, removed));
            Without(b, ServicesIn(b, removed)) == WithoutPoller(c, poller)
  {
    hide IsHostOf;
    var a := Without(c, HostsIn(c, removed));
    var b := Without(a, MembersIn(a, removed));
    var r := Without(b, ServicesIn(b, removed));
    assert r.entries == WithoutPoller(c, poller).entries;
  }

  class MacroCache {
    var cache: Cache

    /** The constructor: what the persistent cache held is written into an empty cache. */
    constructor (saved: seq<Event>)
      ensures cache == Replay(EMPTY, saved) && Valid(cache)
    {
      cache := EMPTY;
      new;
      hide Write, Valid;
      var i := 0;
      while i < |saved|
        invariant 0 <= i <= |saved| && cache == Replay(EMPTY, saved[..i])
      {
        assert saved[..i + 1][..i] == saved[..i];
        cache := Write(cache, saved[i]);
        i := i + 1;
      }
      assert saved[..i] == saved;
      ReplayIsValid(saved);
    }

    /** write: what each kind of event does to the maps. */
    method Pass(e: Event)
      requires Valid(cache)
      modifies this
      ensures cache == Write(old(cache), e) && Valid(cache)
    {
      WriteKeepsValid(cache, e);
      match e {
        case Instance(_, _) => { ProcessInstance(e); }
        case HostGroup(group, enabled, _) => { if enabled { Store(HostGroupKey(group), e); } }
        case HostGroupMember(host, group, enabled) => {
          if enabled { Store(HostGroupMemberKey(host, group), e); } else { Erase(HostGroupMemberKey(host, group)); }
        }
        case ServiceGroup(group, enabled, _) => { if enabled { Store(ServiceGroupKey(group), e); } }
        case ServiceGroupMember(host, service, group, enabled) => {
          if enabled { Store(ServiceGroupMemberKey(host, service, group), e); }
          else { Erase(ServiceGroupMemberKey(host, service, group)); }
        }
        case CustomVariable(host, service, criticality, level) => {
          if criticality && level != 0 { Store(VariableKey(host, service), e); }
        }
        case BaBvRelation(_, _) => { cache := cache.(relations := cache.relations + multiset{e}); }
        case TruncateTables(started) => { if started { Truncate(); } }
        case Host(host, _, _) => { Store(HostKey(host), e); }
        case Service(host, service, _) => { Store(ServiceKey(host, service), e); }
        case IndexMapping(index, _, _) => { Store(IndexKey(index), e); }
        case MetricMapping(metric, _) => { Store(MetricKey(metric), e); }
        case Ba(ba, _) => { Store(BaKey(ba), e); }
        case Bv(bv, _) => { Store(BvKey(bv), e); }
        case Other => {}
      }
    }

    method Store(k: Key, e: Event)
      modifies this
      ensures cache == old(cache).(entries := old(cache).entries[k := e])
    {
      cache := cache.(entries := cache.entries[k := e]);
    }

    method Erase(k: Key)
      modifies this
      ensures cache == Without(old(cache), {k})
    {
      cache := cache.(entries := cache.entries - {k});
    }

    /** _process_dimension_truncate_table_signal: the three maps are cleared one by one. */
    method Truncate()
      modifies this
      ensures cache == Write(old(cache), TruncateTables(true))
    {
      cache := Without(cache, set k | k in cache.entries && k.BaKey?);
      cache := cache.(relations := multiset{});
      cache := Without(cache, set k | k in cache.entries && k.BvKey?);
    }

    /** _process_instance: the hosts of the poller go, then the memberships of those hosts,
        then their services, and the instance is stored. */
    method ProcessInstance(e: Event)
      requires Valid(cache) && e.Instance?
      modifies this
      ensures cache == Write(old(cache), e)
    {
      hide Valid;
      ghost var before := cache;
      var removed := RemoveHosts(e.poller);
      RemoveMembers(removed);
      RemoveServices(removed);
      RemovedTogether(before, e.poller, removed);
      Store(InstanceKey(e.poller), e);
    }

    method RemoveHosts(poller: nat) returns (removed: set<nat>)
      requires Valid(cache)
      modifies this
      ensures forall h :: h in removed <==> IsHostOf(old(cache), h, poller)
      ensures cache == Without(old(cache), HostsIn(old(cache), removed)) && Valid(cache)
    {
      hide Kept;
      removed := {};
      ghost var seen: set<Key> := {};
      var todo := set k | k in cache.entries && k.HostKey?;
      while todo != {}
        invariant forall k :: k in old(cache).entries && k.HostKey? <==> k in todo || k in seen
        invariant todo !! seen
        invariant forall h :: h in removed <==> HostKey(h) in seen && IsHostOf(old(cache), h, poller)
        invariant cache == Without(old(cache), HostsIn(old(cache), removed))
      {
        var k :| k in todo;
        var host := cache.entries[k];
        assert KeyOf(host) == k;
        if host.poller == poller {
          removed := removed + {host.host};
          cache := cache.(entries := cache.entries - {k});
        }
        todo, seen := todo - {k}, seen + {k};
      }
    }

    method RemoveMembers(removed: set<nat>)
      requires Valid(cache)
      modifies this
      ensures cache == Without(old(cache), MembersIn(old(cache), removed)) && Valid(cache)
    {
      hide Kept, KeyOf;
      var ids := removed;
      while ids != {}
        invariant ids <= removed
        invariant cache == Without(old(cache), MembersIn(old(cache), removed - ids))
      {
        var id :| id in ids;
        ghost var before := cache;
        var todo := MembersIn(cache, {id});
        while todo != {}
          invariant todo <= MembersIn(before, {id})
          invariant cache == Without(before, MembersIn(before, {id}) - todo)
        {
          var k :| k in todo;
          cache := cache.(entries := cache.entries - {k});
          todo := todo - {k};
        }
        ids := ids - {id};
      }
      assert removed - ids == removed;
    }

    method RemoveServices(removed: set<nat>)
      requires Valid(cache)
      modifies this
      ensures cache == Without(old(cache), ServicesIn(old(cache), removed)) && Valid(cache)
    {
      hide Kept;
      ghost var seen: set<Key> := {};
      var todo := set k | k in cache.entries && k.ServiceKey?;
      while todo != {}
        invariant forall k :: k in old(cache).entries && k.ServiceKey? <==> k in todo || k in seen
        invariant todo !! seen
        invariant cache == Without(old(cache), ServicesIn(old(cache), removed) * seen)
      {
        var k :| k in todo;
        var service := cache.entries[k];
        assert KeyOf(service) == k;
        if service.host in removed {
          cache := cache.(entries := cache.entries - {k});
        }
        todo, seen := todo - {k}, seen + {k};
      }
      assert ServicesIn(old(cache), removed) * seen == ServicesIn(old(cache), removed);
    }

    /** _save_to_disk: one loop for every kind of entry, each in any order. */
    method Listed() returns (events: seq<Event>)
      requires Valid(cache)
      ensures Lists(events, cache)
    {
      events := [];
      var rank := 0;
      while rank <= 12
        invariant 0 <= rank <= 13
        invariant ListsUpTo(events, cache, rank)
      {
        events := ListKind(events, rank);
        rank := rank + 1;
      }
      ListsAll(events, cache);
    }

    /** _save_to_disk: the listed events replace those of the persistent cache. */
    method SaveToDisk(p: PersistentCache.Cache<Event>) returns (ok: bool, ghost listed: seq<Event>)
      requires Valid(cache) && p.disk.cache.Some?
      modifies p
      ensures Lists(listed, cache)
      ensures ok == !old(p.writing) && p.writing == old(p.writing)
      ensures p.disk == if ok then PersistentCache.DoAll(old(p.disk), PersistentCache.Save(listed)) else old(p.disk)
      ensures p.ops == old(p.ops) + if ok then PersistentCache.Save(listed) else []
    {
      var events := Listed();
      listed := events;
      ok := p.ReplaceWith(events);
    }

    method ListKind(before: seq<Event>, rank: nat) returns (events: seq<Event>)
      requires Valid(cache) && rank <= 12 && ListsUpTo(before, cache, rank)
      ensures ListsUpTo(events, cache, rank + 1)
    {
      hide ListsPart, Rank, Valid;
      if rank == 10 {
        events := ListRelations(before);
        NextRank(events, cache, rank);
        return;
      }
      events := before;
      var todo := set k | k in cache.entries && Rank(cache.entries[k]) == rank;
      while todo != {}
        invariant todo <= cache.entries.Keys
        invariant forall k :: k in todo ==> Rank(cache.entries[k]) == rank
        invariant ListsPart(events, cache, rank, todo, if rank > 10 then cache.relations else multiset{})
      {
        var k :| k in todo;
        EntryListed(events, cache, rank, todo, k);
        events := events + [cache.entries[k]];
        todo := todo - {k};
      }
      NextRank(events, cache, rank);
    }

    method ListRelations(before: seq<Event>) returns (events: seq<Event>)
      requires Valid(cache) && ListsUpTo(before, cache, 10)
      ensures ListsPart(events, cache, 10, {}, cache.relations)
    {
      hide ListsPart, Rank;
      events := before;
      NoRelationEntry(events, cache);
      var todo := cache.relations;
      while todo != multiset{}
        invariant todo <= cache.relations
        invariant ListsPart(events, cache, 10, {}, cache.relations - todo)
        decreases |todo|
      {
        var e :| e in todo;
        RelationListed(events, cache, cache.relations - todo, e);
        events := events + [e];
        assert cache.relations - (todo - multiset{e}) == cache.relations - todo + multiset{e};
        todo := todo - multiset{e};
      }
      assert cache.relations - todo == cache.relations;
    }
  }

  /** Relations are not entries. */
  lemma NoRelationEntry(events: seq<Event>, c: Cache)
    requires Valid(c) && ListsUpTo(events, c, 10)
    ensures ListsPart(events, c, 10, {}, c.relations - c.relations)
  {
    forall k | k in c.entries ensures Rank(c.entries[k]) != 10 { KeptIsNoRelation(c.entries[k]); }
  }

  lemma NextRank(events: seq<Event>, c: Cache, rank: nat)
    requires ListsPart(events, c, rank, {}, if rank >= 10 then c.relations else multiset{})
    ensures ListsUpTo(events, c, rank + 1)
  {
    hide Rank, KeyOf;
  }

  /** All kinds before `rank` are listed. */
  ghost predicate ListsUpTo(events: seq<Event>, c: Cache, rank: nat) {
    ListsPart(events, c, rank, set k | k in c.entries && Rank(c.entries[k]) == rank,
              if rank > 10 then c.relations else multiset{})
  }

  /** All kinds before `rank` are listed, and those of that kind whose keys are not in `todo`. */
  ghost predicate ListsPart(events: seq<Event>, c: Cache, rank: nat, todo: set<Key>, relations: multiset<Event>) {
    && (forall i, j :: 0 <= i < j < |events| ==> Rank(events[i]) <= Rank(events[j]))
    && (forall e :: e in events ==> Rank(e) <= rank)
    && (forall e :: e in events && !e.BaBvRelation? ==> KeyOf(e) in c.entries && c.entries[KeyOf(e)] == e)
    && (forall k :: k in c.entries && Rank(c.entries[k]) <= rank && k !in todo ==> c.entries[k] in events)
    && Relations(events) == relations
  }

  lemma RelationsMore(events: seq<Event>, e: Event)
    ensures Relations(events + [e]) == Relations(events) + if e.BaBvRelation? then multiset{e} else multiset{}
  {
    assert (events + [e])[..|events|] == events;
  }

  lemma RelationListed(events: seq<Event>, c: Cache, relations: multiset<Event>, e: Event)
    requires ListsPart(events, c, 10, {}, relations) && e.BaBvRelation?
    ensures ListsPart(events + [e], c, 10, {}, relations + multiset{e})
  {
    hide KeyOf, Kept, Relations;
    RelationsMore(events, e);
  }

  lemma EntryListed(events: seq<Event>, c: Cache, rank: nat, todo: set<Key>, k: Key)
    requires Valid(c) && k in todo && k in c.entries && Rank(c.entries[k]) == rank
    requires ListsPart(events, c, rank, todo, if rank > 10 then c.relations else multiset{})
    ensures ListsPart(events + [c.entries[k]], c, rank, todo - {k}, if rank > 10 then c.relations else multiset{})
  {
    hide KeyOf, Rank, Kept, Relations;
    RelationsMore(events, c.entries[k]);
    KeptIsNoRelation(c.entries[k]);
  }

  lemma ListsAll(events: seq<Event>, c: Cache)
    requires Valid(c) && ListsUpTo(events, c, 13)
    ensures Lists(events, c)
  {
    hide KeyOf, Rank, Kept, Relations;
    forall k | k in c.entries ensures Rank(c.entries[k]) <= 12 { KeptRank(c.entries[k]); }
  }

  lemma KeptRank(e: Event)
    ensures Kept(e) ==> Rank(e) <= 12
  {}

  // ---------------------------------------------------- saving across a crash

  /** The cache that the next run starts with after a crash at step k of a save. */
  function Restarted(d: PersistentCache.Disk<Event>, listed: seq<Event>, k: nat): Cache
    requires k <= |listed| + 4
  {
    Replay(EMPTY, PersistentCache.Reopened(PersistentCache.DoAll(d, PersistentCache.Save(listed)[..k])).cache.value)
  }

  lemma RestartedWith(d: PersistentCache.Disk<Event>, listed: seq<Event>, k: nat)
    requires d.cache.Some? && k <= |listed| + 4
    ensures Restarted(d, listed, k) ==
            if k < |listed| + 3 then Replay(EMPTY, d.cache.value)
            else Replay(Replay(EMPTY, PersistentCache.ContentsOf(d.newFile)), listed)
  {
    hide Replay;
    PersistentCache.CrashDuringSave(d, listed, k);
    ReplayConcat(EMPTY, PersistentCache.ContentsOf(d.newFile), listed);
  }

  /** A run saves its cache over the cache of the run before, and may crash at any step of
      it. The next run starts with exactly the old cache up to the second rename, and with
      exactly the new one from then on, if and only if nothing of what earlier crashes left
      in the .new file outlives the new cache. */
  lemma OldOrNewIff(d: PersistentCache.Disk<Event>, old': Cache, new': Cache, listed: seq<Event>)
    requires d.cache.Some? && Replay(EMPTY, d.cache.value) == old'
    requires Valid(new') && Lists(listed, new')
    ensures (forall k: nat :: k <= |listed| + 4 ==> Restarted(d, listed, k) == if k < |listed| + 3 then old' else new')
            <==> Harmless(Replay(EMPTY, PersistentCache.ContentsOf(d.newFile)), new')
  {
    hide Restarted, Lists, Replay, Valid, Harmless;
    ReplayOverIff(Replay(EMPTY, PersistentCache.ContentsOf(d.newFile)), listed, new');
    forall k: nat | k <= |listed| + 4
      ensures Restarted(d, listed, k) ==
              if k < |listed| + 3 then old'
              else Replay(Replay(EMPTY, PersistentCache.ContentsOf(d.newFile)), listed)
    {
      RestartedWith(d, listed, k);
    }
    var last := |listed| + 4;
    assert Restarted(d, listed, last) == Replay(Replay(EMPTY, PersistentCache.ContentsOf(d.newFile)), listed);
  }

  /** In particular if they left nothing there. */
  lemma OldOrNew(d: PersistentCache.Disk<Event>, old': Cache, new': Cache, listed: seq<Event>, k: nat)
    requires Valid(old') && Valid(new') && Lists(listed, new')
    requires d.cache.Some? && Lists(d.cache.value, old')
    requires PersistentCache.ContentsOf(d.newFile) == []
    requires k <= |listed| + 4
    ensures var r := PersistentCache.Reopened(PersistentCache.DoAll(d, PersistentCache.Save(listed)[..k]));
            Replay(EMPTY, r.cache.value) == if k < |listed| + 3 then old' else new'
  {
    hide Lists, Valid;
    assert Harmless(Replay(EMPTY, []), new');
    ReplayOfList(d.cache.value, old');
    OldOrNewIff(d, old', new', listed);
    assert Restarted(d, listed, k) == if k < |listed| + 3 then old' else new';
  }

  /** A crash at step k of a first save, and a second save that ends well: the run after it
      starts with the cache saved second if and only if nothing of the part of the first one
      that was written outlives it. */
  lemma SaveAfterCrash(d: PersistentCache.Disk<Event>, first: seq<Event>, k: nat, new': Cache, listed: seq<Event>)
    requires d.cache.Some? && PersistentCache.ContentsOf(d.newFile) == [] && k <= |first| + 4
    requires Valid(new') && Lists(listed, new')
    ensures var d' := PersistentCache.Reopened(PersistentCache.DoAll(d, PersistentCache.Save(first)[..k]));
            Restarted(d', listed, |listed| + 4) == new' <==> Harmless(Replay(EMPTY, Written(first, k)), new')
  {
    hide Restarted, Lists, Replay, Valid, Harmless;
    PersistentCache.CrashDuringSave(d, first, k);
    var d' := PersistentCache.Reopened(PersistentCache.DoAll(d, PersistentCache.Save(first)[..k]));
    assert [] + first[..PersistentCache.Min(if k == 0 then 0 else k - 1, |first|)] == first[..PersistentCache.Min(if k == 0 then 0 else k - 1, |first|)];
    assert PersistentCache.ContentsOf(d'.newFile) == Written(first, k);
    RestartedWith(d', listed, |listed| + 4);
    ReplayOverIff(Replay(EMPTY, Written(first, k)), listed, new');
  }

  /** What a crash at step k of a save leaves in the .new file. */
  function Written(listed: seq<Event>, k: nat): seq<Event>
    requires k <= |listed| + 4
  {
    if k == 0 || k >= |listed| + 3 then [] else listed[..PersistentCache.Min(k - 1, |listed|)]
  }

  /** If the same cache is saved again after the crash, it is rebuilt if and only if no
      relation had been written: those would be there twice. */
  lemma SameCacheSavedAgain(d: PersistentCache.Disk<Event>, c: Cache, listed: seq<Event>, k: nat)
    requires d.cache.Some? && PersistentCache.ContentsOf(d.newFile) == [] && k <= |listed| + 4
    requires Valid(c) && Lists(listed, c)
    ensures var d' := PersistentCache.Reopened(PersistentCache.DoAll(d, PersistentCache.Save(listed)[..k]));
            Restarted(d', listed, |listed| + 4) == c <==> Relations(Written(listed, k)) == multiset{}
  {
    hide Restarted, Lists, Replay, Valid, Relations, Enumerates, InstancesBeforeHosts, KeyOf;
    SaveAfterCrash(d, listed, k, c, listed);
    ListsEnumerates(listed, c);
    var w := Written(listed, k);
    ReplayPart(listed, c, |w|);
    assert w == listed[..|w|];
  }

  /** A relation left in the .new file is doubled by the save of the same relation. */
  lemma RelationIsDoubled()
    ensures var e := BaBvRelation(1, 2);
            Restarted(PersistentCache.Disk(Options.Some([]), Options.Some([e]), Options.None), [e], 5) ==
            Cache(map[], multiset{e, e})
  {
    var e := BaBvRelation(1, 2);
    RestartedWith(PersistentCache.Disk(Options.Some([]), Options.Some([e]), Options.None), [e], 5);
    assert [e][..0] == [];
    assert Replay(EMPTY, [e]) == Cache(map[], multiset{e});
  }
}

/** The subscription registry: subscribe, unsubscribe, disconnect and lookup
    (`crates/realtime-engine/src/registry/`). */
module Registries {
  import opened Wrappers
  import opened TopicPatterns
  import opened Filters
  import opened IndexState
  import opened IndexUpdates
  import opened RegistryState
  import opened Replays
  import opened FilterIndexes
  import CB = CircuitBreakers

  class SubscriptionRegistry {
    var byConnection: ByConnection
    var byTopic: ByTopic
    var bySubId: BySubId
    var patterns: map<string, TopicPattern>
    const filterIndex: FilterIndex

    ghost function AllMaps(): Maps
      reads this
    {
      Maps(byConnection, byTopic, bySubId, patterns)
    }

    /** The four maps and the index hold the same subscriptions, each once. */
    ghost predicate Valid()
      reads this, filterIndex, filterIndex.stats, filterIndex.breaker
    {
      && filterIndex.Valid()
      && MapsAgree(AllMaps())
      && Contents(filterIndex.Data()) == AsSlots(bySubId)
      && ConnectionCapHolds(byConnection, ConnectionCap(filterIndex.limits))
    }

    constructor (limits: Limits)
      ensures Valid() && filterIndex.Clean() && AllMaps() == Maps(map[], map[], map[], map[])
      ensures filterIndex.patterns == map[] && filterIndex.fieldsByPattern == map[]
      ensures fresh(filterIndex) && fresh(filterIndex.stats) && fresh(filterIndex.breaker)
      ensures filterIndex.limits == limits && filterIndex.breaker.State() == CB.CLOSED
    {
      hide DataOk, CapsOk, MapsAgree, AsSlots, IndexUpdates.Contents, CleanNames, ConnectionCapHolds;
      byConnection, byTopic, bySubId, patterns := map[], map[], map[], map[];
      filterIndex := new FilterIndex(limits);
      new;
      EmptyMapsAgree(limits);
    }

    /** The admission check made before the index is asked. */
    function Guard(conn: nat): Outcome<CapacityError>
      reads this
    {
      GuardOn(Maps(byConnection, byTopic, bySubId, patterns), conn, filterIndex.limits)
    }

    /** The guard first, then the index's limits. */
    ghost function FullVerdict(sub: Subscription): Outcome<CapacityError>
      reads this, filterIndex, filterIndex.stats
    {
      if Guard(sub.conn).Fail? then Guard(sub.conn) else Verdict(filterIndex.Data(), sub, filterIndex.limits)
    }

    /** Registers a subscription everywhere, or changes nothing but the rejection counter.
        The registry stays consistent exactly when nothing was registered for a live pair. */
    method Subscribe(sub: Subscription, node: Option<nat>) returns (r: Outcome<CapacityError>)
      requires Valid() && Parsed(sub.topic) && HasRoom(filterIndex.Data(), filterIndex.limits)
      modifies this, filterIndex, filterIndex.stats`subscriptionsRejected, filterIndex.stats`slotsAllocated,
               filterIndex.stats`compositeKeyCount
      ensures r == old(FullVerdict(sub))
      ensures Valid() <==> r.Fail? || KeyOfSub(sub) !in old(bySubId)
      ensures r.Pass? ==> Subscribed(old(AllMaps()), AllMaps(), Entry(sub, node))
      ensures r.Pass? ==> bySubId == old(bySubId)[KeyOfSub(sub) := Entry(sub, node)]
      ensures r.Pass? ==> byConnection.Keys == old(byConnection).Keys + {sub.conn}
      ensures r.Pass? ==> Inserted(old(filterIndex.Data()), filterIndex.Data(), SlotFor(sub, node))
      ensures r.Pass? ==> NamesGrown(old(filterIndex.Data()), filterIndex.Data(), sub)
      ensures r.Fail? ==> unchanged(this) && unchanged(filterIndex)
      ensures r.Fail? ==> unchanged(filterIndex.stats`slotsAllocated) && unchanged(filterIndex.stats`compositeKeyCount)
      ensures filterIndex.stats.subscriptionsRejected ==
              old(filterIndex.stats.subscriptionsRejected) + (if r.Fail? && old(Guard(sub.conn)).Pass? then 1 else 0)
      ensures old(Guard(sub.conn)).Pass? <==>
              && (sub.conn in old(byConnection) ==>
                    |old(byConnection)[sub.conn]| < filterIndex.limits.maxSubscriptionsPerConnection)
              && |old(bySubId)| < filterIndex.limits.maxTotalSubscriptions
      ensures old(filterIndex.Clean()) && CleanSlot(SlotFor(sub, node)) ==> filterIndex.Clean()
    {
      hide DataOk, CapsOk, MapsAgree, AsSlots, IndexUpdates.Contents, CleanNames, Verdict, Subscribed, Inserted,
           NamesGrown, HasRoom, GuardOn, ConnectionCapHolds, ConnectionCap, CleanSlot, KeyOfSub;
      ghost var m, d := AllMaps(), filterIndex.Data();
      GuardMeans(m, sub.conn, filterIndex.limits);
      r := Guard(sub.conn);
      if r.Fail? {
        return;
      }
      r := filterIndex.AddSubscription(sub, node);
      if r.Fail? {
        return;
      }
      ghost var d' := filterIndex.Data();
      Enlist(Entry(sub, node));
      assert filterIndex.Data() == d';
      SubscribedKeepsAll(m, AllMaps(), d, d', sub, node, filterIndex.limits);
    }

    method Enlist(entry: Entry)
      modifies this
      ensures Subscribed(old(AllMaps()), AllMaps(), entry)
      ensures bySubId == old(bySubId)[EntryKey(entry) := entry]
      ensures byConnection.Keys == old(byConnection).Keys + {entry.subscription.conn}
    {
      var sub := entry.subscription;
      byConnection := byConnection[sub.conn := ListAt(byConnection, sub.conn) + [entry]];
      var pattern := AsStr(sub.topic);
      byTopic := byTopic[pattern := ListAt(byTopic, pattern) + [KeyOfSub(sub)]];
      if pattern !in patterns {
        patterns := patterns[pattern := sub.topic];
      }
      bySubId := bySubId[KeyOfSub(sub) := entry];
    }

    /** Removes one subscription everywhere; reports whether it existed. */
    method Unsubscribe(conn: nat, sub: string) returns (existed: bool)
      requires Valid()
      modifies this, filterIndex, filterIndex.stats`slotsFreed, filterIndex.stats`compositeKeyCount
      ensures Valid()
      ensures existed == (SubKey(conn, sub) in old(bySubId))
      ensures bySubId == old(bySubId) - {SubKey(conn, sub)} && byConnection.Keys == old(byConnection).Keys
      ensures filterIndex.patterns == old(filterIndex.patterns)
      ensures filterIndex.fieldsByPattern == old(filterIndex.fieldsByPattern)
      ensures old(filterIndex.Clean()) ==> filterIndex.Clean()
    {
      hide DataOk, CapsOk, MapsAgree, AsSlots, IndexUpdates.Contents, CleanNames, Unsubscribed, ConnectionCapHolds;
      var key := SubKey(conn, sub);
      if key !in bySubId {
        assert bySubId - {key} == bySubId;
        return false;
      }
      ghost var before := AllMaps();
      var entry := bySubId[key];
      StoredTopic(before, key);
      Unlist(key);
      filterIndex.RemoveSubscription(entry.subscription);
      UnsubscribeKeepsAgreement(before, AllMaps(), key);
      UnsubscribeKeepsCap(before, AllMaps(), key, ConnectionCap(filterIndex.limits));
      return true;
    }

    method Unlist(key: SubKey)
      requires key in bySubId
      modifies this
      ensures Unsubscribed(old(AllMaps()), AllMaps(), key)
      ensures byConnection.Keys == old(byConnection).Keys
    {
      var entry := bySubId[key];
      bySubId := bySubId - {key};
      if key.conn in byConnection {
        byConnection := byConnection[key.conn :=
                                     Retain(byConnection[key.conn], (x: Entry) => x.subscription.sub != key.sub)];
      }
      var pattern := AsStr(entry.subscription.topic);
      if pattern in byTopic {
        byTopic := byTopic[pattern := Retain(byTopic[pattern],
                                             (j: SubKey) => !(j.conn == key.conn && j.sub == key.sub))];
      }
    }

    /** Removes every subscription of a connection, one pass over its entries. */
    method RemoveConnection(conn: nat)
      requires Valid()
      modifies this, filterIndex, filterIndex.stats`slotsFreed, filterIndex.stats`compositeKeyCount
      ensures Valid()
      ensures bySubId == map k | k in old(bySubId) && k.conn != conn :: old(bySubId)[k]
      ensures byConnection.Keys == old(byConnection).Keys - {conn}
      ensures filterIndex.patterns == old(filterIndex.patterns)
      ensures filterIndex.fieldsByPattern == old(filterIndex.fieldsByPattern)
      ensures old(filterIndex.Clean()) ==> filterIndex.Clean()
    {
      hide DataOk, CapsOk, MapsAgree, AsSlots, IndexUpdates.Contents, CleanNames, Dismantling, DroppedOne;
      if conn !in byConnection {
        NoListNoSubscriptions(AllMaps(), conn);
        return;
      }
      StartDismantling(AllMaps(), conn, ConnectionCap(filterIndex.limits));
      var subs := byConnection[conn];
      byConnection := byConnection - {conn};
      for i := 0 to |subs|
        invariant filterIndex.Valid() && (old(filterIndex.Clean()) ==> filterIndex.Clean())
        invariant byConnection.Keys == old(byConnection).Keys - {conn}
        invariant filterIndex.patterns == old(filterIndex.patterns)
        invariant filterIndex.fieldsByPattern == old(filterIndex.fieldsByPattern)
        invariant ConnectionCapHolds(byConnection, ConnectionCap(filterIndex.limits))
        invariant Dismantling(AllMaps(), conn, subs[i..])
        invariant Contents(filterIndex.Data()) == AsSlots(bySubId)
        invariant forall k :: k in bySubId ==> k in old(bySubId) && bySubId[k] == old(bySubId)[k]
        invariant forall k :: k in old(bySubId) && k.conn != conn ==> k in bySubId
      {
        ghost var before := AllMaps();
        DropEntry(conn, subs[i]);
        assert subs[i..][0] == subs[i] && subs[i..][1..] == subs[i + 1..];
        DropOneKeepsDismantling(before, AllMaps(), conn, subs[i..]);
        StoredSlot(before.bySubId, SubKey(conn, subs[i].subscription.sub));
        filterIndex.RemoveSubscription(subs[i].subscription);
      }
      assert subs[|subs|..] == [];
      DismantledAgrees(AllMaps(), conn);
    }

    method DropEntry(conn: nat, entry: Entry)
      modifies this`byTopic, this`bySubId
      ensures DroppedOne(old(AllMaps()), AllMaps(), conn, entry)
      ensures bySubId == old(bySubId) - {SubKey(conn, entry.subscription.sub)}
    {
      var pattern := AsStr(entry.subscription.topic);
      if pattern in byTopic {
        byTopic := byTopic[pattern := Retain(byTopic[pattern], (j: SubKey) => j.conn != conn)];
      }
      bySubId := bySubId - {SubKey(conn, entry.subscription.sub)};
    }

    /** The listed subscriptions of one matching pattern whose filters accept. */
    method ScanList(pattern: string, e: Event) returns (found: seq<Match>)
      requires MapsAgree(AllMaps()) && pattern in patterns && Matches(patterns[pattern], e.topic)
      ensures multiset(found) == multiset(MatchesOfKeys(bySubId, AcceptedOf(bySubId, pattern, e)))
    {
      found := [];
      var listed := ListAt(byTopic, pattern);
      for i := 0 to |listed|
        invariant multiset(found) == multiset(MatchesOfKeys(bySubId, AcceptedBelow(bySubId, listed, i, e)))
      {
        OneMoreListed(AllMaps(), pattern, i, e);
        ListedTopic(AllMaps(), pattern, listed[i]);
        var entry := bySubId[listed[i]];
        if FilterAccepts(entry.subscription.filter, GetterOf(e)) {
          found := found + [EntryMatch(entry)];
        }
      }
      ListCoversPattern(AllMaps(), pattern, e);
    }

    /** The linear reference: every pattern, every listed subscription, its filter. */
    method LookupMatches(e: Event) returns (matches: seq<Match>)
      requires Valid()
      ensures multiset(matches) == multiset(LinearMatches(Contents(filterIndex.Data()), e))
    {
      hide DataOk, CapsOk, AsSlots, IndexUpdates.Contents, MapsAgree, ScanAccepts, LinearMatches, AcceptedOutside,
           AcceptedOf;
      matches := [];
      var pending := patterns.Keys;
      NoneAccepted(AllMaps(), e);
      while pending != {}
        invariant pending <= patterns.Keys
        invariant multiset(matches) == multiset(MatchesOfKeys(bySubId, AcceptedOutside(bySubId, pending, e)))
      {
        var pattern :| pattern in pending;
        PatternScanned(AllMaps(), pending, pattern, e);
        pending := pending - {pattern};
        if Matches(patterns[pattern], e.topic) {
          var found := ScanList(pattern, e);
          matches := matches + found;
        } else {
          PatternSkipped(AllMaps(), pattern, e);
        }
      }
      ScannedIsLinear(AllMaps(), e);
    }

    /** One operation, and where it leaves the registry: consistent unless it registered a
        live pair again. */
    method Apply(op: Operation, ghost r: Replayed) returns (verdict: Outcome<CapacityError>)
      requires Valid() && filterIndex.Clean() && Follows(AllMaps(), filterIndex.Data(), r) && WellNamed(op)
      requires op.DoSubscribe? ==> HasRoom(filterIndex.Data(), filterIndex.limits)
      modifies this, filterIndex, filterIndex.stats`subscriptionsRejected, filterIndex.stats`slotsAllocated,
               filterIndex.stats`slotsFreed, filterIndex.stats`compositeKeyCount
      ensures Valid() <==> !(op.DoSubscribe? && verdict.Pass? && KeyOfSub(op.sub) in old(bySubId))
      ensures filterIndex.Clean()
      ensures Follows(AllMaps(), filterIndex.Data(), AfterOne(r, op, filterIndex.limits))
      ensures verdict == VerdictOn(r, op, filterIndex.limits)
    {
      hide DataOk, CapsOk, MapsAgree, AsSlots, IndexUpdates.Contents, CleanNames, CleanSlot, ConnectionCapHolds,
           Follows, Admission, Admitted, Verdict, NamesGrown, HasRoom;
      ghost var m, d := AllMaps(), filterIndex.Data();
      verdict := Pass;
      match op
      case DoSubscribe(sub, node) =>
        GuardsAreAdmission(m, d, r, sub, filterIndex.limits);
        verdict := Subscribe(sub, node);
        if verdict.Pass? {
          AdmittedFollows(m, d, AllMaps(), filterIndex.Data(), r, sub, node);
        }
      case DoUnsubscribe(conn, subId) =>
        FollowsMeans(m, d, r);
        var _ := Unsubscribe(conn, subId);
        RemovedFollows(m, d, AllMaps(), filterIndex.Data(), r, AfterOne(r, op, filterIndex.limits));
      case DoRemoveConnection(conn) =>
        FollowsMeans(m, d, r);
        RemoveConnection(conn);
        RemovedFollows(m, d, AllMaps(), filterIndex.Data(), r, AfterOne(r, op, filterIndex.limits));
    }
  }

  /** Patterns come from parsing and no name contains the key separator. */
  ghost predicate WellNamed(op: Operation) {
    op.DoSubscribe? ==> Parsed(op.sub.topic) && CleanSlot(SlotFor(op.sub, op.node))
  }

  /** Operation `n` registers no pair that is live by then. */
  ghost predicate FreshAt(ops: seq<Operation>, n: nat, limits: Limits)
    requires n < |ops|
  {
    var r := Replay(ops[..n], limits);
    ops[n].DoSubscribe? && VerdictOn(r, ops[n], limits).Pass? ==> KeyOfSub(ops[n].sub) !in r.entries
  }

  ghost predicate NamedRun(ops: seq<Operation>, limits: Limits) {
    && (limits.maxTotalSubscriptions <= 0x1_0000_0000 || |ops| <= 0x1_0000_0000)
    && forall n :: 0 <= n < |ops| ==> WellNamed(ops[n])
  }

  ghost predicate FreshRun(ops: seq<Operation>, limits: Limits) {
    forall n :: 0 <= n < |ops| ==> FreshAt(ops, n, limits)
  }

  /** Runs the operations on a fresh registry, up to and with the first that registers a
      live pair again. The registry ends consistent exactly when there is none. */
  method Run(limits: Limits, ops: seq<Operation>)
      returns (registry: SubscriptionRegistry, verdicts: seq<Outcome<CapacityError>>)
    requires NamedRun(ops, limits)
    ensures fresh(registry) && fresh(registry.filterIndex) && fresh(registry.filterIndex.stats)
    ensures fresh(registry.filterIndex.breaker) && registry.filterIndex.breaker.State() == CB.CLOSED
    ensures registry.Valid() <==> FreshRun(ops, limits)
    ensures registry.filterIndex.Clean() && |verdicts| <= |ops|
    ensures Follows(registry.AllMaps(), registry.filterIndex.Data(), Replay(ops[..|verdicts|], limits))
    ensures forall n :: 0 <= n < |verdicts| ==> verdicts[n] == VerdictOn(Replay(ops[..n], limits), ops[n], limits)
    ensures if registry.Valid() then |verdicts| == |ops|
            else |verdicts| > 0 && !FreshAt(ops, |verdicts| - 1, limits)
    ensures forall n :: 0 <= n < |verdicts| - 1 ==> FreshAt(ops, n, limits)
  {
    hide DataOk, CapsOk, MapsAgree, IndexUpdates.Contents, CleanNames, ConnectionCapHolds, CleanSlot, Follows, Replay,
         VerdictOn, WellNamed, AsSlots, AfterOne, HasRoom, FreshAt;
    registry := new SubscriptionRegistry(limits);
    verdicts := [];
    var again := false;
    NothingReplayed(registry.AllMaps(), registry.filterIndex.Data(), limits);
    assert ops[..0] == [];
    while |verdicts| < |ops| && !again
      invariant |verdicts| <= |ops|
      invariant fresh(registry) && fresh(registry.filterIndex) && fresh(registry.filterIndex.stats)
      invariant fresh(registry.filterIndex.breaker) && registry.filterIndex.limits == limits
      invariant registry.Valid() <==> !again
      invariant registry.filterIndex.Clean() && registry.filterIndex.breaker.State() == CB.CLOSED
      invariant Follows(registry.AllMaps(), registry.filterIndex.Data(), Replay(ops[..|verdicts|], limits))
      invariant forall i :: 0 <= i < |verdicts| ==> verdicts[i] == VerdictOn(Replay(ops[..i], limits), ops[i], limits)
      invariant forall i :: 0 <= i < |verdicts| - (if again then 1 else 0) ==> FreshAt(ops, i, limits)
      invariant again ==> |verdicts| > 0 && !FreshAt(ops, |verdicts| - 1, limits)
      decreases |ops| - |verdicts|
    {
      var n, op := |verdicts|, ops[|verdicts|];
      ghost var r := Replay(ops[..n], limits);
      FollowsMeans(registry.AllMaps(), registry.filterIndex.Data(), r);
      RoomInRun(registry.AllMaps(), registry.filterIndex.Data(), ops[..n], limits);
      var live := op.DoSubscribe? && KeyOfSub(op.sub) in registry.bySubId;
      var verdict := registry.Apply(op, r);
      again := live && verdict.Pass?;
      verdicts := verdicts + [verdict];
      ReplayOneMore(ops, n, limits);
      FreshDecided(ops, n, limits);
    }
    assert ops[..|ops|] == ops;
  }

  lemma FreshDecided(ops: seq<Operation>, n: nat, limits: Limits)
    requires n < |ops|
    ensures var r := Replay(ops[..n], limits);
            FreshAt(ops, n, limits) <==>
            !(ops[n].DoSubscribe? && KeyOfSub(ops[n].sub) in r.entries && VerdictOn(r, ops[n], limits).Pass?)
  {
  }

  /** The match names a live subscription and its node; the subscription's pattern matches
      the event and its filter accepts it. */
  predicate IsWanted(entries: BySubId, e: Event, m: Match) {
    SubKey(m.conn, m.sub) in entries &&
    var x := entries[SubKey(m.conn, m.sub)];
    && m.node == x.node && Matches(x.subscription.topic, e.topic)
    && (x.subscription.filter.None? || Evaluate(x.subscription.filter.value, GetterOf(e)))
  }

  /** After any sequence of operations on a fresh registry: each subscribe is answered as
      the replay says, the live subscriptions are the replay's, the linear scan and the
      index lookup deliver what they should of those, each match once, and the two agree
      exactly when no live subscription is misread by spelling. */
  method LookupsAfterAnyRun(limits: Limits, ops: seq<Operation>, e: Event, clock: Clock)
    returns (verdicts: seq<Outcome<CapacityError>>, entries: BySubId, indexed: seq<Match>, linear: seq<Match>)
    requires NamedRun(ops, limits) && FreshRun(ops, limits)
    ensures |verdicts| == |ops|
    ensures forall n :: 0 <= n < |ops| ==> verdicts[n] == VerdictOn(Replay(ops[..n], limits), ops[n], limits)
    ensures entries == Replay(ops, limits).entries
    ensures multiset(linear) == multiset(LinearMatches(AsSlots(entries), e))
    ensures forall m :: m in linear <==> IsWanted(entries, e, m)
    ensures multiset(indexed) == multiset(IndexedMatches(AsSlots(entries), e))
    ensures multiset(linear) <= multiset(indexed)
    ensures multiset(indexed) == multiset(linear) <==>
            forall k :: k in entries ==> !MisreadBySpelling(SlotFor(entries[k].subscription, entries[k].node), e)
    ensures forall i, j :: 0 <= i < j < |indexed| ==> indexed[i] != indexed[j]
  {
    hide DataOk, CapsOk, MapsAgree, IndexUpdates.Contents, CleanNames, IndexedMatches, LinearMatches, MisreadBySpelling,
         ConnectionCapHolds, Follows, Replay, VerdictOn, NamedRun, FreshRun, AsSlots, IsWanted;
    var registry;
    registry, verdicts := Run(limits, ops);
    assert ops[..|ops|] == ops;
    FollowsMeans(registry.AllMaps(), registry.filterIndex.Data(), Replay(ops, limits));
    entries := registry.bySubId;
    linear := registry.LookupMatches(e);
    indexed := registry.filterIndex.CollectMatches(e, clock);
    AgreeUnlessMisread(registry.AllMaps(), indexed, linear, e);
    LinearIsWanted(registry.AllMaps(), linear, e);
  }

  lemma NothingReplayed(m: Maps, d: IndexData, limits: Limits)
    requires m.bySubId == map[] && m.byConnection == map[] && d.patterns == map[] && d.walked.fields == map[]
    ensures Follows(m, d, Replay([], limits))
  {
  }

  lemma FollowsMeans(m: Maps, d: IndexData, r: Replayed)
    requires Follows(m, d, r)
    ensures m.bySubId == r.entries && m.byConnection.Keys == r.listed
  {
  }

  lemma RoomInRun(m: Maps, d: IndexData, ops: seq<Operation>, limits: Limits)
    requires DataOk(d) && SameContents(m, d) && m.bySubId == Replay(ops, limits).entries
    requires limits.maxTotalSubscriptions <= 0x1_0000_0000 || |ops| < 0x1_0000_0000
    ensures HasRoom(d, limits)
  {
    ReplayCount(ops, limits);
    TrackedIsHeld(m, d);
  }

  lemma AgreeUnlessMisread(m: Maps, indexed: seq<Match>, linear: seq<Match>, e: Event)
    requires MapsAgree(m)
    requires multiset(linear) == multiset(LinearMatches(AsSlots(m.bySubId), e))
    requires multiset(indexed) == multiset(IndexedMatches(AsSlots(m.bySubId), e))
    ensures multiset(linear) <= multiset(indexed)
    ensures multiset(indexed) == multiset(linear) <==>
            forall k :: k in m.bySubId ==> !MisreadBySpelling(SlotFor(m.bySubId[k].subscription, m.bySubId[k].node), e)
    ensures forall i, j :: 0 <= i < j < |indexed| ==> indexed[i] != indexed[j]
  {
    hide MapsAgree, IndexedMatches, LinearMatches, MisreadBySpelling;
    var live := AsSlots(m.bySubId);
    StoredSlots(m);
    assert forall k :: k in m.bySubId ==> k in live && live[k] == SlotFor(m.bySubId[k].subscription, m.bySubId[k].node);
    IndexRefinesLinearScan(live, e);
    DistinctFromSet(indexed, IndexedMatches(live, e));
    SameMultiset(indexed, linear, IndexedMatches(live, e), LinearMatches(live, e));
  }

  lemma LinearIsWanted(m: Maps, linear: seq<Match>, e: Event)
    requires MapsAgree(m) && multiset(linear) == multiset(LinearMatches(AsSlots(m.bySubId), e))
    ensures forall x :: x in linear <==> IsWanted(m.bySubId, e, x)
  {
    hide MapsAgree, LinearMatches, Matches, Evaluate;
    StoredSlots(m);
    forall x ensures x in linear <==> IsWanted(m.bySubId, e, x) {
      LinearMatchExactness(AsSlots(m.bySubId), e, x);
      assert x in linear <==> x in multiset(linear);
    }
  }

  lemma StoredSlots(m: Maps)
    requires MapsAgree(m)
    ensures KeyedByOwner(AsSlots(m.bySubId))
  {
  }

  /** A sequence with the multiset of a set has no repeats. */
  lemma {:induction false} DistinctFromSet(s: seq<Match>, items: set<Match>)
    requires multiset(s) == multiset(items)
    ensures forall i, j :: 0 <= i < j < |s| ==> s[i] != s[j]
  {
    forall i, j | 0 <= i < j < |s| ensures s[i] != s[j] {
      assert s == s[..i] + [s[i]] + s[i + 1..];
      assert s[i + 1..][j - i - 1] == s[j];
      assert multiset(s) == multiset(s[..i]) + multiset{s[i]} + multiset(s[i + 1..]);
      assert multiset(items)[s[i]] <= 1;
    }
  }

  lemma SameMultiset(a: seq<Match>, b: seq<Match>, x: set<Match>, y: set<Match>)
    requires multiset(a) == multiset(x) && multiset(b) == multiset(y)
    ensures multiset(a) == multiset(b) <==> x == y
    ensures y <= x ==> multiset(b) <= multiset(a)
  {
    if multiset(x) == multiset(y) {
      assert forall m :: m in x <==> m in multiset(x);
      assert forall m :: m in y <==> m in multiset(y);
    }
  }
}

/** What a sequence of operations leaves behind and which subscriptions it admits, stated
    without the index (`crates/realtime-engine/src/registry/`, `filter_index/mutate.rs`). */
module Replays {
  import opened Wrappers
  import opened TopicPatterns
  import opened FilterKeys
  import opened IndexState
  import opened IndexUpdates
  import opened RegistryState

  datatype Operation =
    | DoSubscribe(sub: Subscription, node: Option<nat>)
    | DoUnsubscribe(conn: nat, subId: string)
    | DoRemoveConnection(conn: nat)

  /** The live subscriptions, and what outlives them: every pattern and indexed field ever
      admitted, and the connections that have a list, empty or not. */
  datatype Replayed = Replayed(entries: BySubId, patterns: set<string>, fields: map<string, seq<string>>,
                               listed: set<nat>)

  const NOTHING := Replayed(map[], {}, map[], {})

  ghost function HeldBy(entries: BySubId, c: nat): set<SubKey> {
    set k | k in entries && k.conn == c
  }

  ghost function UnfilteredOn(entries: BySubId, p: string): set<SubKey> {
    set k | k in entries && TopicOf(entries[k]) == p && GoesUnfiltered(entries[k].subscription.filter)
  }

  function EntryKeys(x: Entry): seq<string> {
    FilterKeysOf(TopicOf(x), x.subscription.filter)
  }

  function KeyLists(entries: BySubId): map<SubKey, seq<string>> {
    map k | k in entries :: EntryKeys(entries[k])
  }

  ghost function KeysHeld(entries: BySubId): nat {
    TotalKeys(KeyLists(entries))
  }

  /** The first limit one more subscription would meet, the connection's first. */
  ghost function Admission(r: Replayed, sub: Subscription, limits: Limits): Outcome<CapacityError> {
    var p := AsStr(sub.topic);
    if sub.conn in r.listed && |HeldBy(r.entries, sub.conn)| >= limits.maxSubscriptionsPerConnection
    then Fail(ConnectionLimit)
    else if |r.entries| >= limits.maxTotalSubscriptions then Fail(GlobalLimit)
    else if p !in r.patterns && |r.patterns| >= limits.maxPatterns then Fail(PatternLimit)
    else if |UnfilteredOn(r.entries, p)| >= limits.maxSubscriptionsPerPattern then Fail(PerPatternLimit)
    else if KeysHeld(r.entries) + |FilterKeysOf(p, sub.filter)| > limits.maxCompositeKeys then Fail(CompositeKeyLimit)
    else if sub.filter.Some? && |FieldsAt(r.fields, p)| + |FieldsOf(sub.filter.value)| > limits.maxFieldsPerPattern
    then Fail(FieldLimit)
    else Pass
  }

  function Admitted(r: Replayed, sub: Subscription, node: Option<nat>): Replayed {
    var p := AsStr(sub.topic);
    Replayed(
      r.entries[KeyOfSub(sub) := Entry(sub, node)],
      r.patterns + {p},
      if sub.filter.None? then r.fields
      else r.fields[p := AddFields(FieldsAt(r.fields, p), IndexedFields(sub.filter.value))],
      r.listed + {sub.conn})
  }

  ghost function VerdictOn(r: Replayed, op: Operation, limits: Limits): Outcome<CapacityError> {
    if op.DoSubscribe? then Admission(r, op.sub, limits) else Pass
  }

  ghost function AfterOne(r: Replayed, op: Operation, limits: Limits): Replayed {
    match op
    case DoSubscribe(sub, node) => if Admission(r, sub, limits).Pass? then Admitted(r, sub, node) else r
    case DoUnsubscribe(conn, subId) => r.(entries := r.entries - {SubKey(conn, subId)})
    case DoRemoveConnection(conn) =>
      r.(entries := map k | k in r.entries && k.conn != conn :: r.entries[k], listed := r.listed - {conn})
  }

  ghost function Replay(ops: seq<Operation>, limits: Limits): Replayed {
    if ops == [] then NOTHING
    else AfterOne(Replay(ops[..|ops| - 1], limits), ops[|ops| - 1], limits)
  }

  lemma ReplayOneMore(ops: seq<Operation>, n: nat, limits: Limits)
    requires n < |ops|
    ensures Replay(ops[..n + 1], limits) == AfterOne(Replay(ops[..n], limits), ops[n], limits)
  {
    assert ops[..n + 1][..n] == ops[..n];
  }

  lemma {:induction false} ReplayCount(ops: seq<Operation>, limits: Limits)
    ensures |Replay(ops, limits).entries| <= |ops|
  {
    if ops != [] {
      var before, after := Replay(ops[..|ops| - 1], limits).entries, Replay(ops, limits).entries;
      ReplayCount(ops[..|ops| - 1], limits);
      var op := ops[|ops| - 1];
      if op.DoSubscribe? {
        assert after.Keys <= before.Keys + {KeyOfSub(op.sub)};
        SubsetCount(after.Keys, before.Keys + {KeyOfSub(op.sub)});
      } else {
        assert after.Keys <= before.Keys;
        SubsetCount(after.Keys, before.Keys);
      }
    }
  }

  // ---------- The registry admits what the replay admits ----------

  /** The registry's maps and the index are where the replay is. */
  ghost predicate Follows(m: Maps, d: IndexData, r: Replayed) {
    && m.bySubId == r.entries
    && m.byConnection.Keys == r.listed
    && d.patterns.Keys == r.patterns
    && forall p :: FieldsAt(d.walked.fields, p) == FieldsAt(r.fields, p)
  }

  /** The index holds the registry's subscriptions. */
  ghost predicate SameContents(m: Maps, d: IndexData) {
    Contents(d) == AsSlots(m.bySubId)
  }

  /** The keys of a list of current entries: as many as entries. */
  lemma KeysOfList(bySubId: BySubId, list: seq<Entry>) returns (keys: seq<SubKey>)
    requires NoDuplicates(list)
    requires forall i :: 0 <= i < |list| ==> EntryKey(list[i]) in bySubId && bySubId[EntryKey(list[i])] == list[i]
    ensures |keys| == |list| && forall i :: 0 <= i < |list| ==> keys[i] == EntryKey(list[i])
    ensures |(set k | k in keys)| == |list|
  {
    keys := seq(|list|, i requires 0 <= i < |list| => EntryKey(list[i]));
    forall i, j | 0 <= i < j < |keys| ensures keys[i] != keys[j] {
      assert bySubId[keys[i]] == list[i] && bySubId[keys[j]] == list[j];
    }
    DistinctCount(keys);
  }

  lemma ListIsHeld(byConnection: ByConnection, bySubId: BySubId, c: nat)
    requires EntriesOk(bySubId) && ConnectionsOk(byConnection, bySubId)
    ensures |ListAt(byConnection, c)| == |HeldBy(bySubId, c)|
  {
    var list := ListAt(byConnection, c);
    forall i | 0 <= i < |list| ensures CurrentEntry(bySubId, c, list[i]) {
      assert list[i] in ListAt(byConnection, c);
    }
    assert NoDuplicates(list);
    var keys := KeysOfList(bySubId, list);
    forall k | k in HeldBy(bySubId, c) ensures k in keys {
      assert bySubId[k] in ListAt(byConnection, k.conn);
      var i :| 0 <= i < |list| && list[i] == bySubId[k];
      assert keys[i] == k;
    }
    assert (set k | k in keys) == HeldBy(bySubId, c);
  }

  lemma {:induction false} ImageCount(keys: set<SubKey>, m: map<SubKey, nat>)
    requires keys <= m.Keys && forall j, k :: j in keys && k in keys && m[j] == m[k] ==> j == k
    ensures |(set k | k in keys :: m[k])| == |keys|
    decreases |keys|
  {
    if keys != {} {
      var k :| k in keys;
      ImageCount(keys - {k}, m);
      assert (set j | j in keys :: m[j]) == (set j | j in keys - {k} :: m[j]) + {m[k]};
    }
  }

  /** What the index stores for a subscription. */
  lemma StoredInSlot(m: Maps, d: IndexData, k: SubKey)
    requires DataOk(d) && SameContents(m, d)
    ensures d.bySub.Keys == m.bySubId.Keys
    ensures k in d.bySub ==>
              && LiveAt(d.slots, d.bySub[k])
              && d.slots[d.bySub[k]].value == SlotFor(m.bySubId[k].subscription, m.bySubId[k].node)
              && KeyOf(d.slots[d.bySub[k]].value) == k
  {
    hide DataOk, IndexUpdates.Contents;
    ContentsAreKeyed(d);
    KeysOfSlots(m.bySubId);
  }

  lemma OwnerOf(d: IndexData, id: nat)
    requires DataOk(d) && LiveAt(d.slots, id)
    ensures KeyOf(d.slots[id].value) in d.bySub && d.bySub[KeyOf(d.slots[id].value)] == id
  {
  }

  lemma BitmapIsUnfiltered(m: Maps, d: IndexData, p: string)
    requires DataOk(d) && SameContents(m, d)
    ensures |Bitmap(d.walked.unfiltered, p)| == |UnfilteredOn(m.bySubId, p)|
  {
    hide DataOk, SameContents;
    var keys, bitmap := UnfilteredOn(m.bySubId, p), Bitmap(d.walked.unfiltered, p);
    forall k | k in keys
      ensures k in d.bySub && d.bySub[k] in bitmap && LiveAt(d.slots, d.bySub[k])
              && KeyOf(d.slots[d.bySub[k]].value) == k
    {
      StoredInSlot(m, d, k);
      UnfilteredBitmapMeaning(d, p, d.bySub[k]);
    }
    ImageCount(keys, d.bySub);
    forall id | id in bitmap ensures id in (set k | k in keys :: d.bySub[k]) {
      UnfilteredBitmapMeaning(d, p, id);
      OwnerOf(d, id);
      StoredInSlot(m, d, KeyOf(d.slots[id].value));
    }
    assert bitmap == (set k | k in keys :: d.bySub[k]);
  }

  lemma TrackedIsHeld(m: Maps, d: IndexData)
    requires DataOk(d) && SameContents(m, d)
    ensures d.walked.keyCount == KeysHeld(m.bySubId)
    ensures |d.bySub| == |m.bySubId|
  {
    hide DataOk, SameContents;
    var keys := KeyLists(m.bySubId);
    TrackedMeans(d);
    forall k ensures (k in d.tracked <==> k in keys) && (k in keys ==> d.tracked[k] == keys[k]) {
      StoredInSlot(m, d, k);
      if k in d.bySub {
        TrackedKeysOf(d, k);
      }
    }
    assert d.tracked == keys;
    assert d.bySub.Keys == m.bySubId.Keys;
    assert |d.bySub| == |d.bySub.Keys| && |m.bySubId| == |m.bySubId.Keys|;
  }

  lemma TrackedMeans(d: IndexData)
    requires DataOk(d)
    ensures d.tracked.Keys == d.bySub.Keys && d.walked.keyCount == TotalKeys(d.tracked)
  {
  }

  /** The guard of the registry on its own maps. */
  function GuardOn(m: Maps, conn: nat, limits: Limits): Outcome<CapacityError> {
    if conn in m.byConnection && |m.byConnection[conn]| >= limits.maxSubscriptionsPerConnection
    then Fail(ConnectionLimit)
    else if |m.bySubId| >= limits.maxTotalSubscriptions then Fail(GlobalLimit)
    else Pass
  }

  /** The guard passes a connection below its cap while the total is below its own. */
  lemma GuardMeans(m: Maps, conn: nat, limits: Limits)
    ensures GuardOn(m, conn, limits).Pass? <==>
            && (conn in m.byConnection ==> |m.byConnection[conn]| < limits.maxSubscriptionsPerConnection)
            && |m.bySubId| < limits.maxTotalSubscriptions
  {
  }

  lemma GuardKeepsCap(m: Maps, m': Maps, x: Entry, limits: Limits)
    requires ConnectionCapHolds(m.byConnection, ConnectionCap(limits)) && Subscribed(m, m', x)
    requires GuardOn(m, x.subscription.conn, limits).Pass?
    ensures ConnectionCapHolds(m'.byConnection, ConnectionCap(limits))
  {
    hide ConnectionCapHolds, ConnectionCap;
    SubscribeKeepsCap(m.byConnection, x, limits);
  }

  /** What a registered subscription keeps in the maps, and beside the index. */
  lemma SubscribedKeepsAll(m: Maps, m': Maps, d: IndexData, d': IndexData, sub: Subscription, node: Option<nat>,
                           limits: Limits)
    requires MapsAgree(m) && SameContents(m, d) && ConnectionCapHolds(m.byConnection, ConnectionCap(limits))
    requires GuardOn(m, sub.conn, limits).Pass? && Subscribed(m, m', Entry(sub, node)) && Parsed(sub.topic)
    requires KeyOfSub(sub) !in Contents(d) ==>
               Contents(d') == Contents(d)[KeyOfSub(sub) := SlotFor(sub, node)]
    ensures KeyOfSub(sub) in Contents(d) <==> KeyOfSub(sub) in m.bySubId
    ensures ConnectionCapHolds(m'.byConnection, ConnectionCap(limits))
    ensures KeyOfSub(sub) !in m.bySubId ==> MapsAgree(m') && SameContents(m', d')
  {
    hide MapsAgree, ConnectionCapHolds, GuardOn, Subscribed, Contents, AsSlots;
    KeysOfSlots(m.bySubId);
    GuardKeepsCap(m, m', Entry(sub, node), limits);
    if KeyOfSub(sub) !in m.bySubId {
      SubscribeKeepsAgreement(m, m', Entry(sub, node));
    }
  }

  /** The guards and the index's verdict together are the replay's admission. */
  lemma GuardsAreAdmission(m: Maps, d: IndexData, r: Replayed, sub: Subscription, limits: Limits)
    requires MapsAgree(m) && DataOk(d) && SameContents(m, d) && Follows(m, d, r)
    ensures Admission(r, sub, limits) ==
            if GuardOn(m, sub.conn, limits).Fail? then GuardOn(m, sub.conn, limits) else Verdict(d, sub, limits)
  {
    hide EntriesOk, ConnectionsOk, TopicsSound, TopicsComplete, PatternsKnown, DataOk, SameContents, HeldBy,
         UnfilteredOn, KeysHeld;
    ListIsHeld(m.byConnection, m.bySubId, sub.conn);
    BitmapIsUnfiltered(m, d, AsStr(sub.topic));
    TrackedIsHeld(m, d);
    if sub.filter.Some? {
      CountKeysIsExact(AsStr(sub.topic), sub.filter.value);
    }
    assert |d.patterns| == |d.patterns.Keys|;
  }

  lemma AdmittedFollows(m: Maps, d: IndexData, m': Maps, d': IndexData, r: Replayed, sub: Subscription,
                        node: Option<nat>)
    requires Follows(m, d, r) && NamesGrown(d, d', sub)
    requires m'.bySubId == m.bySubId[KeyOfSub(sub) := Entry(sub, node)]
    requires m'.byConnection.Keys == m.byConnection.Keys + {sub.conn}
    ensures Follows(m', d', Admitted(r, sub, node))
  {
  }

  /** Neither pattern nor field is ever forgotten. */
  lemma RemovedFollows(m: Maps, d: IndexData, m': Maps, d': IndexData, r: Replayed, r': Replayed)
    requires Follows(m, d, r) && d'.patterns == d.patterns && d'.walked.fields == d.walked.fields
    requires m'.bySubId == r'.entries && m'.byConnection.Keys == r'.listed
    requires r'.patterns == r.patterns && r'.fields == r.fields
    ensures Follows(m', d', r')
  {
  }
}

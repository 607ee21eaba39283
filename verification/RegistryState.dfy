/** The registry's maps, what must hold between them, and what each change keeps
    (`crates/realtime-engine/src/registry/`). */
module RegistryState {
  import opened Wrappers
  import opened TopicPatterns
  import opened Filters
  import opened FilterKeys
  import opened IndexState

  datatype Entry = Entry(subscription: Subscription, node: Option<nat>)

  type ByConnection = map<nat, seq<Entry>>
  type ByTopic = map<string, seq<SubKey>>
  type BySubId = map<SubKey, Entry>

  function EntryKey(x: Entry): SubKey {
    KeyOfSub(x.subscription)
  }

  function TopicOf(x: Entry): string {
    AsStr(x.subscription.topic)
  }

  function ListAt<K, V>(m: map<K, seq<V>>, k: K): seq<V> {
    if k in m then m[k] else []
  }

  /** `Vec::retain`. */
  function Retain<T(!new)>(s: seq<T>, keep: T -> bool): (r: seq<T>)
    ensures forall x :: x in r <==> x in s && keep(x)
    ensures |r| <= |s|
  {
    if s == [] then []
    else
      assert s == [s[0]] + s[1..];
      if keep(s[0]) then [s[0]] + Retain(s[1..], keep) else Retain(s[1..], keep)
  }

  lemma {:induction false} RetainKeepsDistinct<T(!new)>(s: seq<T>, keep: T -> bool)
    requires NoDuplicates(s)
    ensures NoDuplicates(Retain(s, keep))
  {
    if s != [] {
      RetainKeepsDistinct(s[1..], keep);
      assert s[0] !in Retain(s[1..], keep);
    }
  }

  // ---------- Agreement between the maps ----------

  ghost predicate EntriesOk(bySubId: BySubId) {
    forall k :: k in bySubId ==> EntryKey(bySubId[k]) == k && Parsed(bySubId[k].subscription.topic)
  }

  /** `x` is a current subscription of connection `c`. */
  predicate CurrentEntry(bySubId: BySubId, c: nat, x: Entry) {
    EntryKey(x) in bySubId && bySubId[EntryKey(x)] == x && x.subscription.conn == c
  }

  /** Each connection's list holds its subscriptions, each once. */
  ghost predicate ConnectionsOk(byConnection: ByConnection, bySubId: BySubId) {
    && (forall c :: NoDuplicates(ListAt(byConnection, c)))
    && (forall c, x :: x in ListAt(byConnection, c) ==> CurrentEntry(bySubId, c, x))
    && (forall k :: k in bySubId ==> bySubId[k] in ListAt(byConnection, k.conn))
  }

  /** `k` is a current subscription on pattern `p`. */
  predicate BelongsTo(bySubId: BySubId, k: SubKey, p: string) {
    k in bySubId && TopicOf(bySubId[k]) == p
  }

  /** Each pattern's list names only its subscriptions, each once. */
  ghost predicate TopicsSound(byTopic: ByTopic, bySubId: BySubId) {
    && (forall p :: NoDuplicates(ListAt(byTopic, p)))
    && (forall p, k :: k in ListAt(byTopic, p) ==> BelongsTo(bySubId, k, p))
  }

  /** Each pattern's list names every subscription of connections other than `but`. */
  ghost predicate TopicsComplete(byTopic: ByTopic, bySubId: BySubId, but: set<nat>) {
    forall k :: k in bySubId && k.conn !in but ==> k in ListAt(byTopic, TopicOf(bySubId[k]))
  }

  ghost predicate PatternsKnown(patterns: map<string, TopicPattern>, bySubId: BySubId) {
    && (forall p :: p in patterns ==> patterns[p] == Parse(p))
    && (forall k :: k in bySubId ==> TopicOf(bySubId[k]) in patterns)
  }

  /** The index holds the same subscriptions. */
  ghost function AsSlots(bySubId: BySubId): Live {
    map k | k in bySubId :: SlotFor(bySubId[k].subscription, bySubId[k].node)
  }

  lemma KeysOfSlots(bySubId: BySubId)
    ensures AsSlots(bySubId).Keys == bySubId.Keys
  {
  }

  lemma StoredSlot(bySubId: BySubId, k: SubKey)
    requires k in bySubId
    ensures k in AsSlots(bySubId) && AsSlots(bySubId)[k].topic == bySubId[k].subscription.topic
  {
  }

  datatype Maps = Maps(
    byConnection: ByConnection,
    byTopic: ByTopic,
    bySubId: BySubId,
    patterns: map<string, TopicPattern>)

  ghost predicate MapsAgree(m: Maps) {
    && EntriesOk(m.bySubId)
    && ConnectionsOk(m.byConnection, m.bySubId)
    && TopicsSound(m.byTopic, m.bySubId)
    && TopicsComplete(m.byTopic, m.bySubId, {})
    && PatternsKnown(m.patterns, m.bySubId)
  }

  /** The cap is tested only once a connection has an entry, so a cap of zero admits one. */
  function ConnectionCap(limits: Limits): nat {
    if limits.maxSubscriptionsPerConnection == 0 then 1 else limits.maxSubscriptionsPerConnection
  }

  ghost predicate ConnectionCapHolds(byConnection: ByConnection, cap: nat) {
    forall c :: |ListAt(byConnection, c)| <= cap
  }

  lemma EmptyMapsAgree(limits: Limits)
    ensures MapsAgree(Maps(map[], map[], map[], map[])) && AsSlots(map[]) == map[]
    ensures ConnectionCapHolds(map[], ConnectionCap(limits))
  {
  }

  // ---------- Subscribe ----------

  ghost predicate Subscribed(m: Maps, m': Maps, x: Entry) {
    var k, p := EntryKey(x), TopicOf(x);
    && m'.byConnection == m.byConnection[k.conn := ListAt(m.byConnection, k.conn) + [x]]
    && m'.byTopic == m.byTopic[p := ListAt(m.byTopic, p) + [k]]
    && m'.bySubId == m.bySubId[k := x]
    && m'.patterns == if p in m.patterns then m.patterns else m.patterns[p := x.subscription.topic]
  }

  lemma SubscribeKeepsAgreement(m: Maps, m': Maps, x: Entry)
    requires MapsAgree(m) && Subscribed(m, m', x) && EntryKey(x) !in m.bySubId && Parsed(x.subscription.topic)
    ensures MapsAgree(m')
    ensures AsSlots(m'.bySubId) == AsSlots(m.bySubId)[EntryKey(x) := SlotFor(x.subscription, x.node)]
  {
    hide EntriesOk, ConnectionsOk, TopicsSound, TopicsComplete, PatternsKnown, AsSlots;
    SubscribeKeepsConnections(m.byConnection, m.bySubId, x);
    SubscribeKeepsTopics(m.byTopic, m.bySubId, x);
    SubscribeKeepsRest(m.patterns, m.bySubId, x);
  }

  lemma SubscribeKeepsCap(byConnection: ByConnection, x: Entry, limits: Limits)
    requires ConnectionCapHolds(byConnection, ConnectionCap(limits))
    requires var c := x.subscription.conn;
             !(c in byConnection && |byConnection[c]| >= limits.maxSubscriptionsPerConnection)
    ensures var c := x.subscription.conn;
            ConnectionCapHolds(byConnection[c := ListAt(byConnection, c) + [x]], ConnectionCap(limits))
  {
    var c := x.subscription.conn;
    var lists := byConnection[c := ListAt(byConnection, c) + [x]];
    forall d ensures |ListAt(lists, d)| <= ConnectionCap(limits) {
      assert |ListAt(byConnection, d)| <= ConnectionCap(limits);
    }
  }

  lemma SubscribeKeepsRest(patterns: map<string, TopicPattern>, bySubId: BySubId, x: Entry)
    requires EntriesOk(bySubId) && PatternsKnown(patterns, bySubId) && Parsed(x.subscription.topic)
    ensures EntriesOk(bySubId[EntryKey(x) := x])
    ensures PatternsKnown(if TopicOf(x) in patterns then patterns else patterns[TopicOf(x) := x.subscription.topic],
                          bySubId[EntryKey(x) := x])
    ensures AsSlots(bySubId[EntryKey(x) := x]) == AsSlots(bySubId)[EntryKey(x) := SlotFor(x.subscription, x.node)]
  {
    hide AsSlots;
    SlotsGrow(bySubId, x);
  }

  lemma SlotsGrow(bySubId: BySubId, x: Entry)
    ensures AsSlots(bySubId[EntryKey(x) := x]) == AsSlots(bySubId)[EntryKey(x) := SlotFor(x.subscription, x.node)]
  {
    hide SlotFor;
  }

  lemma SubscribeKeepsConnections(byConnection: ByConnection, bySubId: BySubId, x: Entry)
    requires EntriesOk(bySubId) && ConnectionsOk(byConnection, bySubId) && EntryKey(x) !in bySubId
    ensures var c := x.subscription.conn;
            ConnectionsOk(byConnection[c := ListAt(byConnection, c) + [x]], bySubId[EntryKey(x) := x])
  {
    var c, k := x.subscription.conn, EntryKey(x);
    var lists, entries := byConnection[c := ListAt(byConnection, c) + [x]], bySubId[k := x];
    assert x !in ListAt(byConnection, c) by {
      assert !CurrentEntry(bySubId, c, x);
    }
    forall d ensures NoDuplicates(ListAt(lists, d)) {
      assert NoDuplicates(ListAt(byConnection, d));
    }
    forall d, y | y in ListAt(lists, d)
      ensures CurrentEntry(entries, d, y)
    {
      if y in ListAt(byConnection, d) {
        assert CurrentEntry(bySubId, d, y);
      }
    }
    forall j | j in entries ensures entries[j] in ListAt(lists, j.conn) {
      if j != k {
        assert bySubId[j] in ListAt(byConnection, j.conn);
      }
    }
  }

  lemma SubscribeKeepsTopics(byTopic: ByTopic, bySubId: BySubId, x: Entry)
    requires TopicsSound(byTopic, bySubId) && TopicsComplete(byTopic, bySubId, {}) && EntryKey(x) !in bySubId
    ensures var p, k := TopicOf(x), EntryKey(x);
            && TopicsSound(byTopic[p := ListAt(byTopic, p) + [k]], bySubId[k := x])
            && TopicsComplete(byTopic[p := ListAt(byTopic, p) + [k]], bySubId[k := x], {})
  {
    var p, k := TopicOf(x), EntryKey(x);
    var lists, entries := byTopic[p := ListAt(byTopic, p) + [k]], bySubId[k := x];
    assert k !in ListAt(byTopic, p) by {
      assert !BelongsTo(bySubId, k, p);
    }
    forall q ensures NoDuplicates(ListAt(lists, q)) {
      assert NoDuplicates(ListAt(byTopic, q));
    }
    forall q, j | j in ListAt(lists, q) ensures BelongsTo(entries, j, q) {
      if j in ListAt(byTopic, q) {
        assert BelongsTo(bySubId, j, q);
      }
    }
    forall j | j in entries ensures j in ListAt(lists, TopicOf(entries[j])) {
      if j != k {
        assert j in ListAt(byTopic, TopicOf(bySubId[j]));
      }
    }
  }

  // ---------- Unsubscribe ----------

  ghost predicate Unsubscribed(m: Maps, m': Maps, k: SubKey) {
    && k in m.bySubId
    && var p := TopicOf(m.bySubId[k]);
    && m'.bySubId == m.bySubId - {k}
    && m'.patterns == m.patterns
    && (forall c :: ListAt(m'.byConnection, c) ==
                    if c == k.conn then Retain(ListAt(m.byConnection, c), (x: Entry) => x.subscription.sub != k.sub)
                    else ListAt(m.byConnection, c))
    && (forall q :: ListAt(m'.byTopic, q) ==
                    if q == p then Retain(ListAt(m.byTopic, q), (j: SubKey) => !(j.conn == k.conn && j.sub == k.sub))
                    else ListAt(m.byTopic, q))
  }

  lemma UnsubscribeKeepsAgreement(m: Maps, m': Maps, k: SubKey)
    requires MapsAgree(m) && Unsubscribed(m, m', k)
    ensures MapsAgree(m')
    ensures AsSlots(m'.bySubId) == AsSlots(m.bySubId) - {k}
  {
    hide EntriesOk, ConnectionsOk, TopicsSound, TopicsComplete, PatternsKnown, AsSlots;
    UnsubscribeKeepsConnections(m, m', k);
    UnsubscribeKeepsTopics(m, m', k);
    RemovalKeepsRest(m.patterns, m.bySubId, k);
  }

  lemma UnsubscribeKeepsCap(m: Maps, m': Maps, k: SubKey, cap: nat)
    requires ConnectionCapHolds(m.byConnection, cap) && Unsubscribed(m, m', k)
    ensures ConnectionCapHolds(m'.byConnection, cap)
  {
    forall c ensures |ListAt(m'.byConnection, c)| <= cap {
      assert |ListAt(m.byConnection, c)| <= cap;
    }
  }

  lemma RemovalKeepsRest(patterns: map<string, TopicPattern>, bySubId: BySubId, k: SubKey)
    requires EntriesOk(bySubId) && PatternsKnown(patterns, bySubId)
    ensures EntriesOk(bySubId - {k}) && PatternsKnown(patterns, bySubId - {k})
    ensures AsSlots(bySubId - {k}) == AsSlots(bySubId) - {k}
  {
    hide Parsed;
  }

  lemma UnsubscribeKeepsConnections(m: Maps, m': Maps, k: SubKey)
    requires EntriesOk(m.bySubId) && ConnectionsOk(m.byConnection, m.bySubId) && Unsubscribed(m, m', k)
    ensures ConnectionsOk(m'.byConnection, m'.bySubId)
  {
    var keep := (x: Entry) => x.subscription.sub != k.sub;
    RetainKeepsDistinct(ListAt(m.byConnection, k.conn), keep);
    forall c, x | x in ListAt(m'.byConnection, c)
      ensures CurrentEntry(m'.bySubId, c, x)
    {
      assert x in ListAt(m.byConnection, c);
      assert c == k.conn ==> keep(x);
    }
    forall j | j in m'.bySubId ensures m'.bySubId[j] in ListAt(m'.byConnection, j.conn) {
      assert m.bySubId[j] in ListAt(m.byConnection, j.conn);
      assert j.conn == k.conn ==> keep(m.bySubId[j]);
    }
  }

  lemma UnsubscribeKeepsTopics(m: Maps, m': Maps, k: SubKey)
    requires TopicsSound(m.byTopic, m.bySubId) && TopicsComplete(m.byTopic, m.bySubId, {}) && Unsubscribed(m, m', k)
    ensures TopicsSound(m'.byTopic, m'.bySubId) && TopicsComplete(m'.byTopic, m'.bySubId, {})
  {
    hide TopicsSound, TopicsComplete;
    NarrowingKeepsTopics(m.byTopic, m'.byTopic, m.bySubId, m'.bySubId, TopicOf(m.bySubId[k]),
                         (j: SubKey) => !(j.conn == k.conn && j.sub == k.sub), {});
  }

  /** One pattern's list keeps the names that `keep` selects and the subscriptions it
      rejects are gone, apart from those of the connections in `but`. */
  lemma NarrowingKeepsTopics(byTopic: ByTopic, byTopic': ByTopic, bySubId: BySubId, bySubId': BySubId, p: string,
                             keep: SubKey -> bool, but: set<nat>)
    requires TopicsSound(byTopic, bySubId) && TopicsComplete(byTopic, bySubId, but)
    requires forall q :: ListAt(byTopic', q) == if q == p then Retain(ListAt(byTopic, q), keep) else ListAt(byTopic, q)
    requires forall k :: k in bySubId' ==> k in bySubId && bySubId'[k] == bySubId[k]
    requires forall k :: k in bySubId && k !in bySubId' ==> TopicOf(bySubId[k]) == p && !keep(k)
    requires forall k :: k in bySubId' && k.conn !in but && TopicOf(bySubId[k]) == p ==> keep(k)
    ensures TopicsSound(byTopic', bySubId') && TopicsComplete(byTopic', bySubId', but)
  {
    forall q ensures NoDuplicates(ListAt(byTopic', q)) {
      assert NoDuplicates(ListAt(byTopic, q));
      RetainKeepsDistinct(ListAt(byTopic, q), keep);
    }
    forall q, k | k in ListAt(byTopic', q) ensures BelongsTo(bySubId', k, q) {
      assert k in ListAt(byTopic, q);
      assert BelongsTo(bySubId, k, q);
    }
    forall k | k in bySubId' && k.conn !in but ensures k in ListAt(byTopic', TopicOf(bySubId'[k])) {
      assert k in ListAt(byTopic, TopicOf(bySubId[k]));
    }
  }

  // ---------- Removing a connection ----------

  /** Part way through removing connection `c`, with `rest` of its entries to go. */
  ghost predicate Dismantling(m: Maps, c: nat, rest: seq<Entry>) {
    && EntriesOk(m.bySubId)
    && ConnectionsOk(m.byConnection[c := rest], m.bySubId)
    && TopicsSound(m.byTopic, m.bySubId)
    && TopicsComplete(m.byTopic, m.bySubId, {c})
    && PatternsKnown(m.patterns, m.bySubId)
  }

  /** One entry of the connection goes: all of the connection's names leave that
      pattern's list at once. */
  ghost predicate DroppedOne(m: Maps, m': Maps, c: nat, x: Entry) {
    && m'.byConnection == m.byConnection && m'.patterns == m.patterns
    && m'.bySubId == m.bySubId - {SubKey(c, x.subscription.sub)}
    && forall q :: ListAt(m'.byTopic, q) ==
                   if q == TopicOf(x) then Retain(ListAt(m.byTopic, q), (j: SubKey) => j.conn != c)
                       else ListAt(m.byTopic, q)
  }

  lemma DropOneKeepsDismantling(m: Maps, m': Maps, c: nat, rest: seq<Entry>)
    requires rest != [] && Dismantling(m, c, rest) && DroppedOne(m, m', c, rest[0])
    ensures Dismantling(m', c, rest[1..])
    ensures SubKey(c, rest[0].subscription.sub) in m.bySubId && m.bySubId[SubKey(c, rest[0].subscription.sub)]
            == rest[0]
    ensures EntryKey(rest[0]) == SubKey(c, rest[0].subscription.sub)
    ensures AsSlots(m'.bySubId) == AsSlots(m.bySubId) - {SubKey(c, rest[0].subscription.sub)}
  {
    hide EntriesOk, ConnectionsOk, TopicsSound, TopicsComplete, PatternsKnown, AsSlots;
    var x := rest[0];
    HeadIsCurrent(m.byConnection, m.bySubId, c, rest);
    DropOneKeepsConnections(m.byConnection, m.bySubId, c, rest);
    DropOneKeepsTopics(m, m', c, x);
    RemovalKeepsRest(m.patterns, m.bySubId, EntryKey(x));
  }

  lemma HeadIsCurrent(byConnection: ByConnection, bySubId: BySubId, c: nat, rest: seq<Entry>)
    requires rest != [] && ConnectionsOk(byConnection[c := rest], bySubId)
    ensures CurrentEntry(bySubId, c, rest[0])
  {
    assert rest[0] in ListAt(byConnection[c := rest], c);
  }

  /** The entry dropped is in no list any more. */
  lemma HeadIsGone(byConnection: ByConnection, bySubId: BySubId, c: nat, rest: seq<Entry>, d: nat, y: Entry)
    requires rest != [] && ConnectionsOk(byConnection[c := rest], bySubId)
    requires y in ListAt(byConnection[c := rest[1..]], d)
    ensures y in ListAt(byConnection[c := rest], d) && y != rest[0]
  {
    var before := byConnection[c := rest];
    assert ListAt(before, c) == rest && NoDuplicates(ListAt(before, c));
    if d == c {
      assert y in rest[1..] && rest == [rest[0]] + rest[1..];
    } else {
      assert rest[0] in ListAt(before, c);
      assert CurrentEntry(bySubId, c, rest[0]);
      assert CurrentEntry(bySubId, d, y);
    }
  }

  lemma TailsAreDistinct(byConnection: ByConnection, c: nat, rest: seq<Entry>, d: nat)
    requires rest != [] && NoDuplicates(ListAt(byConnection[c := rest], d))
    ensures NoDuplicates(ListAt(byConnection[c := rest[1..]], d))
  {
  }

  lemma OthersStayListed(byConnection: ByConnection, c: nat, rest: seq<Entry>, d: nat, y: Entry)
    requires rest != [] && y != rest[0] && y in ListAt(byConnection[c := rest], d)
    ensures y in ListAt(byConnection[c := rest[1..]], d)
  {
    if d == c {
      assert rest == [rest[0]] + rest[1..];
    }
  }

  lemma DropOneKeepsConnections(byConnection: ByConnection, bySubId: BySubId, c: nat, rest: seq<Entry>)
    requires rest != [] && EntriesOk(bySubId) && ConnectionsOk(byConnection[c := rest], bySubId)
    requires CurrentEntry(bySubId, c, rest[0])
    ensures ConnectionsOk(byConnection[c := rest[1..]], bySubId - {EntryKey(rest[0])})
  {
    hide NoDuplicates, ListAt;
    var before, after := byConnection[c := rest], byConnection[c := rest[1..]];
    var entries := bySubId - {EntryKey(rest[0])};
    forall d ensures NoDuplicates(ListAt(after, d)) {
      TailsAreDistinct(byConnection, c, rest, d);
    }
    forall d, y | y in ListAt(after, d) ensures CurrentEntry(entries, d, y) {
      HeadIsGone(byConnection, bySubId, c, rest, d, y);
      assert CurrentEntry(bySubId, d, y);
    }
    forall j | j in entries ensures entries[j] in ListAt(after, j.conn) {
      assert EntryKey(bySubId[j]) == j;
      OthersStayListed(byConnection, c, rest, j.conn, bySubId[j]);
    }
  }

  lemma DropOneKeepsTopics(m: Maps, m': Maps, c: nat, x: Entry)
    requires TopicsSound(m.byTopic, m.bySubId) && TopicsComplete(m.byTopic, m.bySubId, {c})
    requires DroppedOne(m, m', c, x)
    requires SubKey(c, x.subscription.sub) in m.bySubId && m.bySubId[SubKey(c, x.subscription.sub)] == x
    ensures TopicsSound(m'.byTopic, m'.bySubId) && TopicsComplete(m'.byTopic, m'.bySubId, {c})
  {
    hide TopicsSound, TopicsComplete;
    NarrowingKeepsTopics(m.byTopic, m'.byTopic, m.bySubId, m'.bySubId, TopicOf(x), (j: SubKey) => j.conn != c, {c});
  }

  lemma DismantledAgrees(m: Maps, c: nat)
    requires Dismantling(m, c, []) && c !in m.byConnection
    ensures MapsAgree(m)
    ensures forall k :: k in m.bySubId ==> k.conn != c
  {
    var lists := m.byConnection[c := []];
    assert forall d :: ListAt(lists, d) == ListAt(m.byConnection, d);
    forall k | k in m.bySubId ensures k.conn != c && k in ListAt(m.byTopic, TopicOf(m.bySubId[k])) {
      assert m.bySubId[k] in ListAt(lists, k.conn);
    }
  }

  lemma StartDismantling(m: Maps, c: nat, cap: nat)
    requires MapsAgree(m) && c in m.byConnection && ConnectionCapHolds(m.byConnection, cap)
    ensures Dismantling(m.(byConnection := m.byConnection - {c}), c, m.byConnection[c])
    ensures ConnectionCapHolds(m.byConnection - {c}, cap)
  {
    forall d ensures |ListAt(m.byConnection - {c}, d)| <= cap {
      assert |ListAt(m.byConnection, d)| <= cap;
    }
    assert (m.byConnection - {c})[c := m.byConnection[c]] == m.byConnection;
  }

  lemma NoListNoSubscriptions(m: Maps, c: nat)
    requires MapsAgree(m) && c !in m.byConnection
    ensures m.bySubId == map k | k in m.bySubId && k.conn != c :: m.bySubId[k]
  {
    forall k | k in m.bySubId ensures k.conn != c {
      assert m.bySubId[k] in ListAt(m.byConnection, k.conn);
    }
  }

  lemma StoredTopic(m: Maps, k: SubKey)
    requires MapsAgree(m) && k in m.bySubId
    ensures KeyOfSub(m.bySubId[k].subscription) == k
    ensures k in AsSlots(m.bySubId) && AsSlots(m.bySubId)[k].topic == m.bySubId[k].subscription.topic
  {
  }

  // ---------- The linear scan ----------

  /** The scan accepts this entry for the event. */
  predicate ScanAccepts(x: Entry, e: Event) {
    Matches(x.subscription.topic, e.topic) && FilterAccepts(x.subscription.filter, GetterOf(e))
  }

  function EntryMatch(x: Entry): Match {
    Match(x.subscription.conn, x.subscription.sub, x.node)
  }

  ghost function MatchesOfKeys(bySubId: BySubId, keys: set<SubKey>): set<Match>
    requires keys <= bySubId.Keys
  {
    set k | k in keys :: EntryMatch(bySubId[k])
  }

  ghost function AcceptedOf(bySubId: BySubId, p: string, e: Event): (keys: set<SubKey>)
    ensures keys <= bySubId.Keys
  {
    set k | k in bySubId && TopicOf(bySubId[k]) == p && ScanAccepts(bySubId[k], e)
  }

  ghost function AcceptedOutside(bySubId: BySubId, pending: set<string>, e: Event): (keys: set<SubKey>)
    ensures keys <= bySubId.Keys
  {
    set k | k in bySubId && TopicOf(bySubId[k]) !in pending && ScanAccepts(bySubId[k], e)
  }

  lemma NoneAccepted(m: Maps, e: Event)
    requires MapsAgree(m)
    ensures AcceptedOutside(m.bySubId, m.patterns.Keys, e) == {}
  {
  }

  lemma PatternScanned(m: Maps, pending: set<string>, p: string, e: Event)
    requires MapsAgree(m) && p in pending
    ensures AcceptedOutside(m.bySubId, pending - {p}, e) == AcceptedOutside(m.bySubId, pending, e)
            + AcceptedOf(m.bySubId, p, e)
    ensures multiset(MatchesOfKeys(m.bySubId, AcceptedOutside(m.bySubId, pending - {p}, e))) ==
            multiset(MatchesOfKeys(m.bySubId, AcceptedOutside(m.bySubId, pending, e)))
            + multiset(MatchesOfKeys(m.bySubId, AcceptedOf(m.bySubId, p, e)))
  {
    KeysApart(m.bySubId, AcceptedOutside(m.bySubId, pending, e), AcceptedOf(m.bySubId, p, e));
  }

  lemma PatternSkipped(m: Maps, p: string, e: Event)
    requires MapsAgree(m) && p in m.patterns && !Matches(m.patterns[p], e.topic)
    ensures AcceptedOf(m.bySubId, p, e) == {}
  {
    forall k | k in m.bySubId && TopicOf(m.bySubId[k]) == p ensures !ScanAccepts(m.bySubId[k], e) {
      assert m.bySubId[k].subscription.topic == Parse(p);
    }
  }

  /** The keys of different subscriptions give different matches. */
  lemma KeysApart(bySubId: BySubId, a: set<SubKey>, b: set<SubKey>)
    requires EntriesOk(bySubId) && a <= bySubId.Keys && b <= bySubId.Keys && a !! b
    ensures multiset(MatchesOfKeys(bySubId, a + b)) == multiset(MatchesOfKeys(bySubId, a))
            + multiset(MatchesOfKeys(bySubId, b))
  {
    forall j, k | j in a && k in b ensures EntryMatch(bySubId[j]) != EntryMatch(bySubId[k]) {
      assert EntryKey(bySubId[j]) == j && EntryKey(bySubId[k]) == k;
    }
    var x, y := MatchesOfKeys(bySubId, a), MatchesOfKeys(bySubId, b);
    assert MatchesOfKeys(bySubId, a + b) == x + y;
    assert x !! y;
    assert multiset(x + y) == multiset(x) + multiset(y);
  }

  lemma ListedTopic(m: Maps, p: string, k: SubKey)
    requires MapsAgree(m) && k in m.bySubId && TopicOf(m.bySubId[k]) == p && p in m.patterns
    ensures m.bySubId[k].subscription.topic == m.patterns[p]
  {
  }

  /** The accepted subscriptions among the first `n` of a pattern's list. */
  ghost function AcceptedBelow(bySubId: BySubId, listed: seq<SubKey>, n: nat, e: Event): set<SubKey>
    requires n <= |listed|
  {
    set i | 0 <= i < n && listed[i] in bySubId && ScanAccepts(bySubId[listed[i]], e) :: listed[i]
  }

  lemma OneMoreListed(m: Maps, p: string, n: nat, e: Event)
    requires MapsAgree(m) && n < |ListAt(m.byTopic, p)|
    ensures var k, listed := ListAt(m.byTopic, p)[n], ListAt(m.byTopic, p);
            && k in m.bySubId && TopicOf(m.bySubId[k]) == p
            && multiset(MatchesOfKeys(m.bySubId, AcceptedBelow(m.bySubId, listed, n + 1, e))) ==
               multiset(MatchesOfKeys(m.bySubId, AcceptedBelow(m.bySubId, listed, n, e)))
               + (if ScanAccepts(m.bySubId[k], e) then multiset{EntryMatch(m.bySubId[k])} else multiset{})
  {
    hide ConnectionsOk, TopicsComplete, PatternsKnown, ScanAccepts;
    var listed := ListAt(m.byTopic, p);
    var k := listed[n];
    assert k in listed && BelongsTo(m.bySubId, k, p);
    assert NoDuplicates(listed);
    var before, after := AcceptedBelow(m.bySubId, listed, n, e), AcceptedBelow(m.bySubId, listed, n + 1, e);
    assert k !in before;
    if ScanAccepts(m.bySubId[k], e) {
      assert after == before + {k};
      KeysApart(m.bySubId, before, {k});
      assert MatchesOfKeys(m.bySubId, {k}) == {EntryMatch(m.bySubId[k])};
    } else {
      assert after == before;
    }
  }

  /** After a pattern's list the scan has every accepted subscription of that pattern. */
  lemma ListCoversPattern(m: Maps, p: string, e: Event)
    requires MapsAgree(m)
    ensures AcceptedBelow(m.bySubId, ListAt(m.byTopic, p), |ListAt(m.byTopic, p)|, e) == AcceptedOf(m.bySubId, p, e)
  {
    hide ConnectionsOk, PatternsKnown, ScanAccepts;
    var listed := ListAt(m.byTopic, p);
    forall k | k in AcceptedOf(m.bySubId, p, e)
      ensures k in AcceptedBelow(m.bySubId, listed, |listed|, e)
    {
      assert k in ListAt(m.byTopic, TopicOf(m.bySubId[k]));
      var i :| 0 <= i < |listed| && listed[i] == k;
    }
    forall i | 0 <= i < |listed| ensures BelongsTo(m.bySubId, listed[i], p) {
      assert listed[i] in ListAt(m.byTopic, p);
    }
  }

  lemma ScannedIsLinear(m: Maps, e: Event)
    requires MapsAgree(m)
    ensures MatchesOfKeys(m.bySubId, AcceptedOutside(m.bySubId, {}, e)) == LinearMatches(AsSlots(m.bySubId), e)
  {
    hide ConnectionsOk, TopicsSound, TopicsComplete, PatternsKnown;
    var bySubId, keys := m.bySubId, AcceptedOutside(m.bySubId, {}, e);
    var live := AsSlots(bySubId);
    forall t | t in MatchesOfKeys(bySubId, keys) ensures t in LinearMatches(live, e) {
      var k :| k in keys && EntryMatch(bySubId[k]) == t;
      assert k in live && MatchOf(live[k]) == t;
    }
    forall t | t in LinearMatches(live, e) ensures t in MatchesOfKeys(bySubId, keys) {
      var k :| k in live && Matches(live[k].topic, e.topic) && FilterAccepts(live[k].filter, GetterOf(e))
          && MatchOf(live[k]) == t;
      assert k in keys;
    }
  }
}

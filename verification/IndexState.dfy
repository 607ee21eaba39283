/** The data the bitmap index holds and what must hold between its parts
    (`crates/realtime-engine/src/filter_index/mod.rs`). */
module IndexState {
  import opened Wrappers
  import opened Text
  import opened TopicPatterns
  import opened Filters
  import opened FilterKeys

  datatype SubKey = SubKey(conn: nat, sub: string)

  datatype Subscription = Subscription(conn: nat, sub: string, topic: TopicPattern, filter: Option<FilterExpr>)

  datatype DispatchSlot = DispatchSlot(
    conn: nat,
    sub: string,
    node: Option<nat>,
    topic: TopicPattern,
    filter: Option<FilterExpr>,
    bitmapExact: bool)

  /** One delivery target. */
  datatype Match = Match(conn: nat, sub: string, node: Option<nat>)

  datatype Limits = Limits(
    maxPatterns: nat,
    maxSubscriptionsPerPattern: nat,
    maxSubscriptionsPerConnection: nat,
    maxCompositeKeys: nat,
    maxFieldsPerPattern: nat,
    maxTotalSubscriptions: nat,
    slowThresholdUs: nat,
    tripCount: nat,
    cooldownMs: nat)

  datatype CapacityError =
    | ConnectionLimit
    | GlobalLimit
    | PatternLimit
    | PerPatternLimit
    | CompositeKeyLimit
    | FieldLimit

  type Slab = seq<Option<DispatchSlot>>
  type Bitmaps = map<string, set<nat>>

  function KeyOf(s: DispatchSlot): SubKey {
    SubKey(s.conn, s.sub)
  }

  function KeyOfSub(s: Subscription): SubKey {
    SubKey(s.conn, s.sub)
  }

  predicate FilterExactOrAbsent(f: Option<FilterExpr>) {
    f.None? || IsFilterExact(f.value)
  }

  function SlotFor(s: Subscription, node: Option<nat>): DispatchSlot {
    DispatchSlot(s.conn, s.sub, node, s.topic, s.filter, FilterExactOrAbsent(s.filter))
  }

  function FilterKeysOf(pattern: string, f: Option<FilterExpr>): seq<string> {
    match f
    case None => []
    case Some(e) => KeysOf(pattern, e)
  }

  function SlotKeys(s: DispatchSlot): seq<string> {
    FilterKeysOf(AsStr(s.topic), s.filter)
  }

  predicate GoesUnfiltered(f: Option<FilterExpr>) {
    f.None? || HasUnindexedPart(f.value)
  }

  predicate LiveAt(slots: Slab, id: nat) {
    id < |slots| && slots[id].Some?
  }

  function Bitmap(m: Bitmaps, k: string): set<nat> {
    if k in m then m[k] else {}
  }

  function FieldsAt(m: map<string, seq<string>>, p: string): seq<string> {
    if p in m then m[p] else []
  }

  // ---------- Invariants ----------

  /** Every subscription owns one slot and every live slot has its owner. */
  ghost predicate OwnersOk(slots: Slab, bySub: map<SubKey, nat>) {
    && (forall k :: k in bySub ==> LiveAt(slots, bySub[k]) && KeyOf(slots[bySub[k]].value) == k)
    && (forall id: nat :: LiveAt(slots, id) ==> KeyOf(slots[id].value) in bySub && bySub[KeyOf(slots[id].value)] == id)
  }

  predicate DeadAt(slots: Slab, id: nat) {
    id < |slots| && slots[id].None?
  }

  ghost predicate FreeListOk(slots: Slab, free: seq<nat>) {
    && (forall id: nat :: id in free <==> DeadAt(slots, id))
    && NoDuplicates(free)
  }

  /** Live ids and free ids partition the slab, without repeats. */
  ghost predicate SlabOk(slots: Slab, free: seq<nat>, bySub: map<SubKey, nat>) {
    && OwnersOk(slots, bySub)
    && FreeListOk(slots, free)
    && |bySub| + |free| == |slots|
  }

  /** A slot id is in a bitmap exactly when it is live and its own filter contributes
      that key. */
  ghost predicate IndexOk(index: Bitmaps, slots: Slab) {
    forall k, id: nat :: id in Bitmap(index, k) <==> LiveAt(slots, id) && k in SlotKeys(slots[id].value)
  }

  ghost predicate UnfilteredOk(unfiltered: Bitmaps, slots: Slab) {
    forall p, id: nat :: id in Bitmap(unfiltered, p) <==>
                         LiveAt(slots, id) && AsStr(slots[id].value.topic) == p
                             && GoesUnfiltered(slots[id].value.filter)
  }

  ghost predicate PatternsOk(patterns: map<string, TopicPattern>, slots: Slab) {
    && (forall p :: p in patterns ==> patterns[p] == Parse(p) && AsStr(patterns[p]) == p)
    && (forall id: nat :: LiveAt(slots, id) ==>
          Parsed(slots[id].value.topic) && AsStr(slots[id].value.topic) in patterns)
  }

  predicate FieldsListed(fields: map<string, seq<string>>, s: DispatchSlot) {
    s.filter.Some? ==> forall x :: x in IndexedFields(s.filter.value) ==> x in FieldsAt(fields, AsStr(s.topic))
  }

  ghost predicate FieldsOk(fields: map<string, seq<string>>, slots: Slab) {
    && (forall p :: p in fields ==> NoDuplicates(fields[p]))
    && (forall id: nat :: LiveAt(slots, id) ==> FieldsListed(fields, slots[id].value))
  }

  ghost predicate TrackedOk(tracked: map<SubKey, seq<string>>, bySub: map<SubKey, nat>, slots: Slab) {
    && tracked.Keys == bySub.Keys
    && forall k :: k in bySub ==> LiveAt(slots, bySub[k]) && tracked[k] == SlotKeys(slots[bySub[k]].value)
  }

  ghost predicate ExactFlagsOk(slots: Slab) {
    forall id: nat :: LiveAt(slots, id) ==> slots[id].value.bitmapExact == FilterExactOrAbsent(slots[id].value.filter)
  }

  /** No pattern or field ever indexed contains the key separator. */
  ghost predicate CleanNames(patterns: map<string, TopicPattern>, fields: map<string, seq<string>>) {
    && (forall p :: p in patterns ==> FreeOf(p, NUL))
    && (forall p :: p in fields ==> AllFreeOf(fields[p], NUL))
  }

  // ---------- Counting tracked keys ----------

  ghost function TotalKeys(tracked: map<SubKey, seq<string>>): nat {
    if tracked == map[] then 0
    else
      var k :| k in tracked;
      |tracked[k]| + TotalKeys(tracked - {k})
  }

  lemma {:induction false} TotalKeysWithout(tracked: map<SubKey, seq<string>>, k: SubKey)
    requires k in tracked
    ensures TotalKeys(tracked) == |tracked[k]| + TotalKeys(tracked - {k})
    decreases |tracked|
  {
    var j :| j in tracked && TotalKeys(tracked) == |tracked[j]| + TotalKeys(tracked - {j});
    if j != k {
      assert |tracked - {j}| == |tracked| - 1 by {
        assert (tracked - {j}).Keys == tracked.Keys - {j};
      }
      TotalKeysWithout(tracked - {j}, k);
      var rest := tracked - {k};
      assert j in rest && |rest| == |tracked| - 1 by {
        assert rest.Keys == tracked.Keys - {k};
      }
      TotalKeysWithout(rest, j);
      assert tracked - {j} - {k} == rest - {j};
    }
  }

  lemma TotalKeysWith(tracked: map<SubKey, seq<string>>, k: SubKey, keys: seq<string>)
    requires k !in tracked
    ensures TotalKeys(tracked[k := keys]) == TotalKeys(tracked) + |keys|
  {
    TotalKeysWithout(tracked[k := keys], k);
    assert tracked[k := keys] - {k} == tracked;
  }

  // ---------- Slot ids are 32-bit ----------

  const U32_RANGE: nat := 0x1_0000_0000

  /** The id given to a new slot: the last free one, else the slab length cut to 32 bits. */
  function AllocId(slabLength: nat, free: seq<nat>): nat {
    if free != [] then free[|free| - 1]
    else if slabLength < U32_RANGE then slabLength else U32_RANGE - 1
  }

  /** The id handed out belongs to no live slot exactly when one is free or the slab
      has not used up all 32-bit ids. */
  lemma AllocIdIsFresh(slots: Slab, free: seq<nat>, bySub: map<SubKey, nat>)
    requires SlabOk(slots, free, bySub)
    ensures !LiveAt(slots, AllocId(|slots|, free)) <==> free != [] || |slots| < 0x1_0000_0000
  {
    var id := AllocId(|slots|, free);
    assert id in free <==> DeadAt(slots, id);
    if free != [] {
      assert free[|free| - 1] in free;
    }
  }

  // ---------- What a lookup should return ----------

  /** The index keeps the slot for this event. */
  predicate SlotHit(s: DispatchSlot, g: Getter) {
    s.filter.None? || BitmapHit(s.filter.value, g)
  }

  /** What the index path delivers: the hit itself for an exact filter, the filter
      re-evaluated for any other. */
  predicate IndexAccepts(f: Option<FilterExpr>, g: Getter) {
    match f
    case None => true
    case Some(e) => if IsFilterExact(e) then BitmapHit(e, g) else Evaluate(e, g)
  }

  function MatchOf(s: DispatchSlot): Match {
    Match(s.conn, s.sub, s.node)
  }

  type Live = map<SubKey, DispatchSlot>

  ghost predicate KeyedByOwner(live: Live) {
    forall k :: k in live ==> KeyOf(live[k]) == k
  }

  /** Every live subscription whose pattern matches and whose filter accepts. */
  ghost function LinearMatches(live: Live, e: Event): set<Match> {
    set k | k in live && Matches(live[k].topic, e.topic) && FilterAccepts(live[k].filter, GetterOf(e)) ::
        MatchOf(live[k])
  }

  ghost function IndexedMatches(live: Live, e: Event): set<Match> {
    set k | k in live && Matches(live[k].topic, e.topic) && IndexAccepts(live[k].filter, GetterOf(e)) ::
        MatchOf(live[k])
  }

  /** The degraded path: only the unfiltered bitmaps, without filter evaluation. */
  ghost function DegradedMatches(live: Live, e: Event): set<Match> {
    set k | k in live && Matches(live[k].topic, e.topic) && GoesUnfiltered(live[k].filter) :: MatchOf(live[k])
  }

  /** Who is found, named by connection, subscription and node: a live subscription on a
      matching pattern whose filter accepts. */
  lemma LinearMatchExactness(live: Live, e: Event, m: Match)
    requires KeyedByOwner(live)
    ensures m in LinearMatches(live, e) <==>
            SubKey(m.conn, m.sub) in live &&
            var s := live[SubKey(m.conn, m.sub)];
            m.node == s.node && Matches(s.topic, e.topic) && (s.filter.None? || Evaluate(s.filter.value, GetterOf(e)))
  {
    hide Matches, Evaluate;
    if SubKey(m.conn, m.sub) in live && m.node == live[SubKey(m.conn, m.sub)].node {
      assert MatchOf(live[SubKey(m.conn, m.sub)]) == m;
    }
  }

  /** A live subscription the event concerns whose exact filter rejects the event but
      has an operand spelled like the event's value. */
  ghost predicate MisreadBySpelling(s: DispatchSlot, e: Event) {
    && Matches(s.topic, e.topic)
    && s.filter.Some? && IsFilterExact(s.filter.value)
    && SomeOperandMisread(s.filter.value, GetterOf(e))
    && !Evaluate(s.filter.value, GetterOf(e))
  }

  lemma IndexAcceptsExactly(f: Option<FilterExpr>, g: Getter)
    ensures IndexAccepts(f, g) <==>
            FilterAccepts(f, g) || (f.Some? && IsFilterExact(f.value) && SomeOperandMisread(f.value, g))
  {
    if f.Some? && IsFilterExact(f.value) {
      ExactHitDecomposes(f.value, g);
    }
  }

  /** Refinement, exactly: the index misses nothing the linear scan finds, and the two
      agree if and only if no live subscription is misread by spelling. */
  lemma IndexRefinesLinearScan(live: Live, e: Event)
    requires KeyedByOwner(live)
    ensures LinearMatches(live, e) <= IndexedMatches(live, e)
    ensures IndexedMatches(live, e) == LinearMatches(live, e) <==>
            forall k :: k in live ==> !MisreadBySpelling(live[k], e)
  {
    var g := GetterOf(e);
    forall k | k in live
      ensures IndexAccepts(live[k].filter, g) <==>
              FilterAccepts(live[k].filter, g)
                  || (live[k].filter.Some? && IsFilterExact(live[k].filter.value)
                      && SomeOperandMisread(live[k].filter.value, g))
    {
      IndexAcceptsExactly(live[k].filter, g);
    }
    if k :| k in live && MisreadBySpelling(live[k], e) {
      assert MatchOf(live[k]) in IndexedMatches(live, e);
      assert MatchOf(live[k]) !in LinearMatches(live, e);
    } else {
      assert forall k :: k in live && Matches(live[k].topic, e.topic) ==>
          (IndexAccepts(live[k].filter, g) <==> FilterAccepts(live[k].filter, g)) by {
        assert forall k :: k in live ==> !MisreadBySpelling(live[k], e);
      }
    }
  }

  /** With operands of the kinds the event carries the two always agree. */
  lemma SameKindsAgree(live: Live, e: Event)
    requires KeyedByOwner(live)
    requires forall k :: k in live && live[k].filter.Some? ==> OperandsOfEventKind(live[k].filter.value, GetterOf(e))
    ensures IndexedMatches(live, e) == LinearMatches(live, e)
  {
    forall k | k in live ensures !MisreadBySpelling(live[k], e) {
      if live[k].filter.Some? {
        SameKindsNeverMisread(live[k].filter.value, GetterOf(e));
      }
    }
    IndexRefinesLinearScan(live, e);
  }

  /** A numeric field and a string operand that spells the same number: the index
      delivers, the linear scan does not. */
  lemma SpellingCounterexample()
    ensures var slot := SlotFor(Subscription(1, "s", Parse("orders"), Some(Eq("n", Str("7")))), None);
            var live := map[KeyOf(slot) := slot];
            var e := Event("created", "orders", None, Some(JObj([("n", JInt(7))])));
            MatchOf(slot) in IndexedMatches(live, e) && LinearMatches(live, e) == {}
  {
    var slot := SlotFor(Subscription(1, "s", Parse("orders"), Some(Eq("n", Str("7")))), None);
    var live := map[KeyOf(slot) := slot];
    var e := Event("created", "orders", None, Some(JObj([("n", JInt(7))])));
    SplitPrepend("n", "", '.');
    assert PayloadField(e.payload, "n") == Some(Int(7)) by {
      assert Walk(e.payload.value, ["n"]) == Walk(JInt(7), ["n"][1..]);
    }
    assert GetterOf(e)("n") == Some(Int(7));
    assert Render(Int(7)) == ['7'];
    assert Matches(Parse("orders"), "orders");
    assert KeyOf(slot) in live && live[KeyOf(slot)] == slot;
    assert IndexAccepts(slot.filter, GetterOf(e));
    assert MatchOf(slot) in IndexedMatches(live, e);
  }

  /** A live filter the event concerns that no bitmap covers exactly. */
  predicate ConcernsUnindexed(s: DispatchSlot, e: Event) {
    Matches(s.topic, e.topic) && s.filter.Some? && HasUnindexedPart(s.filter.value)
  }

  /** Degraded dispatch, exactly: it stays within the full matches if and only if every
      live filter with an unindexed part on a matching pattern accepts the event. */
  lemma DegradedWithinFull(live: Live, e: Event)
    requires KeyedByOwner(live)
    ensures DegradedMatches(live, e) <= LinearMatches(live, e) <==>
            forall k :: k in live && ConcernsUnindexed(live[k], e) ==> Evaluate(live[k].filter.value, GetterOf(e))
  {
    if k :| k in live && ConcernsUnindexed(live[k], e) && !Evaluate(live[k].filter.value, GetterOf(e)) {
      assert MatchOf(live[k]) in DegradedMatches(live, e);
      assert MatchOf(live[k]) !in LinearMatches(live, e);
    }
  }

  /** While no live filter has a part that cannot be indexed, a degraded dispatch delivers
      nothing the linear scan would not, whatever the event. */
  lemma DegradedIsSafe(live: Live)
    requires KeyedByOwner(live)
    requires forall k :: k in live && live[k].filter.Some? ==> !HasUnindexedPart(live[k].filter.value)
    ensures forall e :: DegradedMatches(live, e) <= LinearMatches(live, e)
  {
    forall e ensures DegradedMatches(live, e) <= LinearMatches(live, e) {
      DegradedWithinFull(live, e);
    }
  }

  /** A degraded dispatch can deliver what the subscriber's filter rejects. */
  lemma DegradedCounterexample()
    ensures var slot := SlotFor(Subscription(1, "s", Parse("orders"), Some(Ne("event_type", Str("deleted")))), None);
            var live := map[KeyOf(slot) := slot];
            var e := Event("deleted", "orders", None, None);
            && MatchOf(slot) in DegradedMatches(live, e)
            && LinearMatches(live, e) == {}
  {
    var slot := SlotFor(Subscription(1, "s", Parse("orders"), Some(Ne("event_type", Str("deleted")))), None);
    var live := map[KeyOf(slot) := slot];
    var e := Event("deleted", "orders", None, None);
    assert Matches(Parse("orders"), "orders");
    assert GetterOf(e)("event_type") == Some(Str("deleted"));
    assert KeyOf(slot) in live && live[KeyOf(slot)] == slot;
    assert MatchOf(slot) in DegradedMatches(live, e);
  }

  /** Removing subscriptions leaves every other subscription's matching alone. */
  lemma RemovalIsLocal(live: Live, gone: set<SubKey>, e: Event)
    requires KeyedByOwner(live)
    ensures IndexedMatches(live - gone, e) == set t | t in IndexedMatches(live, e) && SubKey(t.conn, t.sub) !in gone
    ensures LinearMatches(live - gone, e) == set t | t in LinearMatches(live, e) && SubKey(t.conn, t.sub) !in gone
  {
    assert forall k :: k in live ==> SubKey(MatchOf(live[k]).conn, MatchOf(live[k]).sub) == KeyOf(live[k]) == k;
    assert forall k :: k in live - gone <==> k in live && k !in gone;
  }
}

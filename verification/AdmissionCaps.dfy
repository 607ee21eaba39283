/** When the documented caps hold over every run, and the runs in which they do not or in
    which a limit turns away what would fit (`crates/realtime-engine/src/registry/guards.rs`,
    `filter_index/mutate.rs`). */
module AdmissionCaps {
  import opened Wrappers
  import opened TopicPatterns
  import opened Filters
  import opened FilterKeys
  import opened IndexState
  import opened RegistryState
  import opened Replays

  // ---------- What is admitted ----------

  lemma OneMoreEntry(entries: BySubId, k: SubKey, x: Entry)
    requires k !in entries
    ensures |entries[k := x]| == |entries| + 1
  {
    assert entries[k := x].Keys == entries.Keys + {k};
  }

  lemma HeldWith(entries: BySubId, k: SubKey, x: Entry)
    ensures HeldBy(entries[k := x], k.conn) == HeldBy(entries, k.conn) + {k}
  {
  }

  lemma OneMoreHeldExactly(entries: BySubId, k: SubKey, x: Entry)
    requires k !in entries
    ensures |HeldBy(entries[k := x], k.conn)| == |HeldBy(entries, k.conn)| + 1
  {
    HeldWith(entries, k, x);
    assert k !in HeldBy(entries, k.conn);
  }

  lemma MoreKeyLists(entries: BySubId, k: SubKey, x: Entry)
    requires k !in entries
    ensures KeyLists(entries[k := x]) == KeyLists(entries)[k := EntryKeys(x)]
  {
    hide EntryKeys;
  }

  lemma MoreKeysHeld(entries: BySubId, k: SubKey, x: Entry)
    requires k !in entries
    ensures KeysHeld(entries[k := x]) == KeysHeld(entries) + |EntryKeys(x)|
  {
    hide EntryKeys, TotalKeys;
    MoreKeyLists(entries, k, x);
    TotalKeysWith(KeyLists(entries), k, EntryKeys(x));
  }

  /** A fresh subscription is admitted if and only if the connection, the registry, the
      patterns and the keys are within their caps with it, its pattern's unfiltered
      subscriptions leave room for one more, and so do its pattern's listed fields for all
      those its filter mentions. A connection without a list has room. */
  lemma AdmissionExactness(r: Replayed, sub: Subscription, node: Option<nat>, limits: Limits)
    requires KeyOfSub(sub) !in r.entries
    ensures var r', p := Admitted(r, sub, node), AsStr(sub.topic);
            Admission(r, sub, limits).Pass? <==>
            && (sub.conn in r.listed ==> |HeldBy(r'.entries, sub.conn)| <= limits.maxSubscriptionsPerConnection)
            && |r'.entries| <= limits.maxTotalSubscriptions
            && (p in r.patterns || |r'.patterns| <= limits.maxPatterns)
            && |UnfilteredOn(r.entries, p)| + 1 <= limits.maxSubscriptionsPerPattern
            && KeysHeld(r'.entries) <= limits.maxCompositeKeys
            && (sub.filter.Some? ==>
                  |FieldsAt(r.fields, p)| + |FieldsOf(sub.filter.value)| <= limits.maxFieldsPerPattern)
  {
    hide HeldBy, KeysHeld, UnfilteredOn, FilterKeysOf;
    OneMoreEntry(r.entries, KeyOfSub(sub), Entry(sub, node));
    OneMoreHeldExactly(r.entries, KeyOfSub(sub), Entry(sub, node));
    MoreKeysHeld(r.entries, KeyOfSub(sub), Entry(sub, node));
  }

  // ---------- Operations on one topic ----------

  const TOPIC := "orders"

  /** A filter that lists a field and no value: it enters no bitmap and adds no key. */
  function Nobody(conn: nat): Operation {
    DoSubscribe(Subscription(conn, "s", Parse(TOPIC), Some(In("a", []))), None)
  }

  function Everything(conn: nat): Operation {
    DoSubscribe(Subscription(conn, "s", Parse(TOPIC), None), None)
  }

  lemma TopicIsItself()
    ensures AsStr(Parse(TOPIC)) == TOPIC
  {
    ParseAsStrRoundTrip(TOPIC);
  }

  lemma OneMoreAdmitted(ops: seq<Operation>, op: Operation, limits: Limits)
    requires op.DoSubscribe? && Admission(Replay(ops, limits), op.sub, limits).Pass?
    ensures Replay(ops + [op], limits) == Admitted(Replay(ops, limits), op.sub, op.node)
  {
    hide Admission, Admitted;
    assert (ops + [op])[..|ops + [op]| - 1] == ops;
  }

  /** Room for one unfiltered subscription. */
  predicate HasRoomForOne(limits: Limits) {
    limits.maxTotalSubscriptions >= 1 && limits.maxPatterns >= 1 && limits.maxSubscriptionsPerPattern >= 1
  }

  lemma NoneUnfiltered(p: string)
    ensures UnfilteredOn(map[], p) == {}
  {
  }

  lemma {:induction false} NoKeysHeld(lists: map<SubKey, seq<string>>)
    requires forall k :: k in lists ==> lists[k] == []
    ensures TotalKeys(lists) == 0
    decreases |lists|
  {
    if lists != map[] {
      var k :| k in lists;
      TotalKeysWithout(lists, k);
      assert (lists - {k}).Keys == lists.Keys - {k};
      NoKeysHeld(lists - {k});
    }
  }

  lemma NobodyHasNoKeys()
    ensures FilterKeysOf(TOPIC, Some(In("a", []))) == [] && FieldsOf(In("a", [])) == {"a"}
  {
  }

  lemma FirstPasses(op: Operation, limits: Limits)
    requires HasRoomForOne(limits) && op.DoSubscribe?
    requires op == Everything(op.sub.conn) || (op == Nobody(0) && limits.maxFieldsPerPattern >= 1)
    ensures Admission(NOTHING, op.sub, limits).Pass?
  {
    hide AsStr, Parse, FilterKeysOf, UnfilteredOn, TotalKeys, FieldsOf;
    var none: BySubId := map[];
    TopicIsItself();
    NoneUnfiltered(TOPIC);
    NoKeysHeld(KeyLists(none));
    NobodyHasNoKeys();
    EverythingHasNoKeys();
  }

  lemma EverythingHasNoKeys()
    ensures FilterKeysOf(TOPIC, None) == []
  {
  }

  lemma FirstIsAdmitted(op: Operation, limits: Limits)
    requires HasRoomForOne(limits) && op.DoSubscribe?
    requires op == Everything(op.sub.conn) || (op == Nobody(0) && limits.maxFieldsPerPattern >= 1)
    ensures Replay([op], limits) == Admitted(NOTHING, op.sub, None)
  {
    hide Admission, Admitted;
    FirstPasses(op, limits);
    assert [] + [op] == [op];
    OneMoreAdmitted([], op, limits);
  }

  // ---------- The connection cap ----------

  ghost predicate Listed(r: Replayed) {
    forall k :: k in r.entries ==> k.conn in r.listed
  }

  lemma {:induction false} ReplayIsListed(ops: seq<Operation>, limits: Limits)
    ensures Listed(Replay(ops, limits))
  {
    if ops != [] {
      ReplayIsListed(ops[..|ops| - 1], limits);
    }
  }

  lemma OneMoreHeld(entries: BySubId, k: SubKey, x: Entry, c: nat)
    ensures |HeldBy(entries[k := x], c)| <= |HeldBy(entries, c)| + (if k.conn == c then 1 else 0)
  {
    var before, after := HeldBy(entries, c), HeldBy(entries[k := x], c);
    assert after <= before + (if k.conn == c then {k} else {});
    SubsetCount(after, before + (if k.conn == c then {k} else {}));
  }

  lemma {:induction false} HeldWithinCap(ops: seq<Operation>, limits: Limits, c: nat)
    ensures |HeldBy(Replay(ops, limits).entries, c)| <= ConnectionCap(limits)
  {
    if ops != [] {
      var r, op := Replay(ops[..|ops| - 1], limits), ops[|ops| - 1];
      HeldWithinCap(ops[..|ops| - 1], limits, c);
      ReplayIsListed(ops[..|ops| - 1], limits);
      if op.DoSubscribe? {
        OneMoreHeld(r.entries, KeyOfSub(op.sub), Entry(op.sub, op.node), c);
        if op.sub.conn == c && c !in r.listed {
          assert HeldBy(r.entries, c) == {};
        }
      } else {
        SubsetCount(HeldBy(Replay(ops, limits).entries, c), HeldBy(r.entries, c));
      }
    }
  }

  lemma NeverAdmits(r: Replayed, sub: Subscription, limits: Limits)
    requires limits.maxTotalSubscriptions == 0 || limits.maxPatterns == 0 || limits.maxSubscriptionsPerPattern == 0
    requires r.entries == map[] && r.patterns == {}
    ensures Admission(r, sub, limits).Fail?
  {
  }

  lemma {:induction false} NothingAdmitted(ops: seq<Operation>, limits: Limits)
    requires limits.maxTotalSubscriptions == 0 || limits.maxPatterns == 0 || limits.maxSubscriptionsPerPattern == 0
    ensures Replay(ops, limits).entries == map[] && Replay(ops, limits).patterns == {}
  {
    hide Admission, Admitted;
    if ops != [] {
      var r, op := Replay(ops[..|ops| - 1], limits), ops[|ops| - 1];
      NothingAdmitted(ops[..|ops| - 1], limits);
      if op.DoSubscribe? {
        NeverAdmits(r, op.sub, limits);
      }
    }
  }

  /** Under a cap of zero a connection's first subscription is admitted. */
  lemma ZeroCapAdmitsOne(limits: Limits)
    requires HasRoomForOne(limits)
    ensures Replay([Everything(1)], limits).entries == map[SubKey(1, "s") := Entry(Everything(1).sub, None)]
    ensures |HeldBy(Replay([Everything(1)], limits).entries, 1)| == 1
  {
    hide Replay, Admission;
    FirstIsAdmitted(Everything(1), limits);
    assert HeldBy(Replay([Everything(1)], limits).entries, 1) == {SubKey(1, "s")};
  }

  /** In every run every connection stays within its cap, exactly when the cap is at least
      one or another limit admits nothing at all. */
  lemma ConnectionCapExactness(limits: Limits)
    ensures (forall ops, c :: |HeldBy(Replay(ops, limits).entries, c)| <= limits.maxSubscriptionsPerConnection) <==>
            || limits.maxSubscriptionsPerConnection >= 1
            || limits.maxTotalSubscriptions == 0 || limits.maxPatterns == 0 || limits.maxSubscriptionsPerPattern == 0
  {
    hide Replay;
    if limits.maxSubscriptionsPerConnection >= 1 {
      forall ops, c ensures |HeldBy(Replay(ops, limits).entries, c)| <= limits.maxSubscriptionsPerConnection {
        HeldWithinCap(ops, limits, c);
      }
    } else if limits.maxTotalSubscriptions == 0 || limits.maxPatterns == 0 || limits.maxSubscriptionsPerPattern == 0 {
      forall ops, c ensures |HeldBy(Replay(ops, limits).entries, c)| <= 0 {
        NothingAdmitted(ops, limits);
        assert HeldBy(map[], c) == {};
      }
    } else {
      ZeroCapAdmitsOne(limits);
    }
  }

  // ---------- The per-pattern cap ----------

  ghost function OnPattern(entries: BySubId, p: string): set<SubKey> {
    set k | k in entries && TopicOf(entries[k]) == p
  }

  lemma OneMoreOnPattern(entries: BySubId, k: SubKey, x: Entry, p: string)
    ensures |UnfilteredOn(entries[k := x], p)| <=
            |UnfilteredOn(entries, p)| + (if TopicOf(x) == p && GoesUnfiltered(x.subscription.filter) then 1 else 0)
  {
    var added := if TopicOf(x) == p && GoesUnfiltered(x.subscription.filter) then {k} else {};
    assert UnfilteredOn(entries[k := x], p) <= UnfilteredOn(entries, p) + added;
    SubsetCount(UnfilteredOn(entries[k := x], p), UnfilteredOn(entries, p) + added);
  }

  /** What the per-pattern limit does bound: the unfiltered subscriptions of a pattern. */
  lemma {:induction false} UnfilteredWithinCap(ops: seq<Operation>, limits: Limits, p: string)
    ensures |UnfilteredOn(Replay(ops, limits).entries, p)| <= limits.maxSubscriptionsPerPattern
  {
    hide UnfilteredOn;
    if ops == [] {
      assert UnfilteredOn(map[], p) == {} by {
        NoneUnfiltered(p);
      }
    } else {
      var r, op := Replay(ops[..|ops| - 1], limits), ops[|ops| - 1];
      UnfilteredWithinCap(ops[..|ops| - 1], limits, p);
      if op.DoSubscribe? {
        OneMoreOnPattern(r.entries, KeyOfSub(op.sub), Entry(op.sub, op.node), p);
      } else {
        FewerUnfiltered(r.entries, Replay(ops, limits).entries, p);
      }
    }
  }

  lemma FewerUnfiltered(before: BySubId, after: BySubId, p: string)
    requires forall k :: k in after ==> k in before && after[k] == before[k]
    ensures |UnfilteredOn(after, p)| <= |UnfilteredOn(before, p)|
  {
    SubsetCount(UnfilteredOn(after, p), UnfilteredOn(before, p));
  }

  lemma {:induction false} WithinTotal(ops: seq<Operation>, limits: Limits)
    ensures |Replay(ops, limits).entries| <= limits.maxTotalSubscriptions
  {
    if ops != [] {
      var before, after := Replay(ops[..|ops| - 1], limits).entries, Replay(ops, limits).entries;
      WithinTotal(ops[..|ops| - 1], limits);
      var op := ops[|ops| - 1];
      if op.DoSubscribe? {
        SubsetCount(after.Keys, before.Keys + {KeyOfSub(op.sub)});
      } else {
        SubsetCount(after.Keys, before.Keys);
      }
    }
  }

  lemma {:induction false} FilterHasField(f: FilterExpr)
    ensures |FieldsOf(f)| >= 1
  {
    match f
    case And(l, r) =>
      FilterHasField(l);
      SubsetCount(FieldsOf(l), FieldsOf(f));
    case Or(l, r) =>
      FilterHasField(l);
      SubsetCount(FieldsOf(l), FieldsOf(f));
    case Not(inner) => FilterHasField(inner);
    case _ =>
  }

  ghost predicate NoneFiltered(entries: BySubId) {
    forall k :: k in entries ==> entries[k].subscription.filter.None?
  }

  /** Without room for a field no filtered subscription is admitted. */
  lemma {:induction false} NoFieldsNoFilters(ops: seq<Operation>, limits: Limits)
    requires limits.maxFieldsPerPattern == 0
    ensures NoneFiltered(Replay(ops, limits).entries)
  {
    if ops != [] {
      NoFieldsNoFilters(ops[..|ops| - 1], limits);
      var op := ops[|ops| - 1];
      if op.DoSubscribe? && op.sub.filter.Some? {
        FilterHasField(op.sub.filter.value);
      }
    }
  }

  /** One filtered subscription on connection 0, then unfiltered ones on 1, 2, … . */
  function CrowdedRun(n: nat): seq<Operation> {
    if n == 0 then [Nobody(0)] else CrowdedRun(n - 1) + [Everything(n)]
  }

  /** Subscription `s` of each of the connections `low` to `n`. */
  function Pairs(low: nat, n: nat): set<SubKey> {
    set c: nat | low <= c <= n :: SubKey(c, "s")
  }

  ghost predicate Crowded(r: Replayed, n: nat) {
    && r.entries.Keys == Pairs(0, n)
    && (forall k :: k in r.entries ==> TopicOf(r.entries[k]) == TOPIC && EntryKeys(r.entries[k]) == [])
    && UnfilteredOn(r.entries, TOPIC) == Pairs(1, n)
    && r.patterns == {TOPIC}
    && (forall c :: c in r.listed ==> c <= n)
  }

  lemma {:induction false} PairCount(low: nat, n: nat)
    requires low <= n + 1
    ensures |Pairs(low, n)| == n + 1 - low
    decreases n + 1 - low
  {
    if low <= n {
      PairCount(low + 1, n);
      assert Pairs(low, n) == Pairs(low + 1, n) + {SubKey(low, "s")};
    } else {
      assert Pairs(low, n) == {};
    }
  }

  lemma FirstIsCrowd(limits: Limits)
    requires HasRoomForOne(limits) && limits.maxFieldsPerPattern >= 1
    ensures Crowded(Replay(CrowdedRun(0), limits), 0)
  {
    hide Replay, Admission, AsStr, Parse, FilterKeysOf;
    TopicIsItself();
    FirstIsAdmitted(Nobody(0), limits);
    NobodyHasNoKeys();
    var r := Admitted(NOTHING, Nobody(0).sub, None);
    assert r.entries.Keys == {SubKey(0, "s")} == Pairs(0, 0);
    assert UnfilteredOn(r.entries, TOPIC) == {} == Pairs(1, 0);
  }

  lemma CrowdCounts(r: Replayed, n: nat)
    requires Crowded(r, n)
    ensures |r.entries| == n + 1 && |UnfilteredOn(r.entries, TOPIC)| == n && KeysHeld(r.entries) == 0
  {
    PairCount(0, n);
    PairCount(1, n);
    assert |r.entries| == |r.entries.Keys|;
    NoKeysHeld(KeyLists(r.entries));
  }

  lemma NextIsAdmitted(r: Replayed, n: nat, limits: Limits)
    requires Crowded(r, n) && n < limits.maxSubscriptionsPerPattern && n + 1 < limits.maxTotalSubscriptions
    ensures Admission(r, Everything(n + 1).sub, limits).Pass?
  {
    hide AsStr, Parse, FilterKeysOf, UnfilteredOn, TotalKeys;
    TopicIsItself();
    CrowdCounts(r, n);
    EverythingHasNoKeys();
    assert n + 1 !in r.listed;
  }

  lemma OneMoreUnfiltered(entries: BySubId, k: SubKey, x: Entry)
    requires k !in entries && GoesUnfiltered(x.subscription.filter)
    ensures UnfilteredOn(entries[k := x], TopicOf(x)) == UnfilteredOn(entries, TopicOf(x)) + {k}
  {
  }

  lemma AdmittedIsCrowded(r: Replayed, n: nat)
    requires Crowded(r, n)
    ensures Crowded(Admitted(r, Everything(n + 1).sub, None), n + 1)
  {
    hide AsStr, Parse, FilterKeysOf, UnfilteredOn;
    TopicIsItself();
    EverythingHasNoKeys();
    var k, x := SubKey(n + 1, "s"), Entry(Everything(n + 1).sub, None);
    OneMoreUnfiltered(r.entries, k, x);
    assert r.entries[k := x].Keys == Pairs(0, n) + {k} == Pairs(0, n + 1);
    assert Pairs(1, n) + {k} == Pairs(1, n + 1);
  }

  lemma {:induction false} CrowdIsAdmitted(n: nat, limits: Limits)
    requires HasRoomForOne(limits) && limits.maxFieldsPerPattern >= 1
    requires n <= limits.maxSubscriptionsPerPattern && n < limits.maxTotalSubscriptions
    ensures Crowded(Replay(CrowdedRun(n), limits), n)
  {
    hide Crowded, Admission, Admitted, Replay;
    if n == 0 {
      FirstIsCrowd(limits);
    } else {
      CrowdIsAdmitted(n - 1, limits);
      var r := Replay(CrowdedRun(n - 1), limits);
      NextIsAdmitted(r, n - 1, limits);
      OneMoreAdmitted(CrowdedRun(n - 1), Everything(n), limits);
      AdmittedIsCrowded(r, n - 1);
    }
  }

  lemma CrowdSize(r: Replayed, n: nat)
    requires Crowded(r, n)
    ensures |OnPattern(r.entries, TOPIC)| == n + 1
  {
    assert OnPattern(r.entries, TOPIC) == r.entries.Keys;
    PairCount(0, n);
  }

  lemma FewEnough(ops: seq<Operation>, limits: Limits, p: string)
    requires limits.maxTotalSubscriptions <= limits.maxSubscriptionsPerPattern || limits.maxPatterns == 0
             || limits.maxSubscriptionsPerPattern == 0 || limits.maxFieldsPerPattern == 0
    ensures |OnPattern(Replay(ops, limits).entries, p)| <= limits.maxSubscriptionsPerPattern
  {
    var entries := Replay(ops, limits).entries;
    if limits.maxTotalSubscriptions <= limits.maxSubscriptionsPerPattern {
      WithinTotal(ops, limits);
      SubsetCount(OnPattern(entries, p), entries.Keys);
    } else if limits.maxPatterns == 0 || limits.maxSubscriptionsPerPattern == 0 {
      NothingAdmitted(ops, limits);
      assert OnPattern(entries, p) == {};
    } else {
      NoFieldsNoFilters(ops, limits);
      UnfilteredWithinCap(ops, limits, p);
      assert OnPattern(entries, p) == UnfilteredOn(entries, p);
    }
  }

  /** In every run every pattern stays within its cap, filtered and unfiltered subscriptions
      together, exactly when the total cap is no larger or another limit keeps filtered
      subscriptions, or all, out. */
  lemma PatternCapExactness(limits: Limits)
    ensures (forall ops, p :: |OnPattern(Replay(ops, limits).entries, p)| <= limits.maxSubscriptionsPerPattern) <==>
            || limits.maxTotalSubscriptions <= limits.maxSubscriptionsPerPattern || limits.maxPatterns == 0
            || limits.maxSubscriptionsPerPattern == 0 || limits.maxFieldsPerPattern == 0
  {
    hide Replay, Crowded;
    if limits.maxTotalSubscriptions <= limits.maxSubscriptionsPerPattern || limits.maxPatterns == 0
       || limits.maxSubscriptionsPerPattern == 0 || limits.maxFieldsPerPattern == 0 {
      forall ops, p ensures |OnPattern(Replay(ops, limits).entries, p)| <= limits.maxSubscriptionsPerPattern {
        FewEnough(ops, limits, p);
      }
    } else {
      var n := limits.maxSubscriptionsPerPattern;
      CrowdIsAdmitted(n, limits);
      CrowdSize(Replay(CrowdedRun(n), limits), n);
    }
  }

  // ---------- Rejections that are not needed ----------

  lemma NobodyLists()
    ensures FieldsAt(Admitted(NOTHING, Nobody(0).sub, None).fields, TOPIC) == ["a"]
    ensures AddFields(["a"], IndexedFields(In("a", []))) == ["a"]
  {
    hide AsStr, Parse;
    TopicIsItself();
    assert AddFields([], ["a"]) == AddFields(["a"], []) == ["a"];
    assert AddFields(["a"], ["a"]) == AddFields(["a"], []) == ["a"];
  }

  lemma AnotherFieldIsTooMany(r: Replayed, limits: Limits)
    requires Crowded(r, 0) && FieldsAt(r.fields, TOPIC) == ["a"] && HasRoomForOne(limits)
    requires limits.maxTotalSubscriptions >= 2 && limits.maxFieldsPerPattern == 1
    ensures Admission(r, Nobody(1).sub, limits) == Fail(FieldLimit)
  {
    hide AsStr, Parse, FilterKeysOf, UnfilteredOn, TotalKeys, FieldsOf, FieldsAt;
    TopicIsItself();
    CrowdCounts(r, 0);
    NobodyHasNoKeys();
    assert |{"a"}| == 1;
  }

  /** The field limit counts a listed field again: the second subscription on the only
      listed field is rejected although nothing new would be listed. */
  lemma FieldLimitCountsListedFields(limits: Limits)
    requires HasRoomForOne(limits) && limits.maxTotalSubscriptions >= 2 && limits.maxFieldsPerPattern == 1
    ensures Admission(Replay([Nobody(0)], limits), Nobody(1).sub, limits) == Fail(FieldLimit)
    ensures var listed := FieldsAt(Replay([Nobody(0)], limits).fields, TOPIC);
            AddFields(listed, IndexedFields(In("a", []))) == listed == ["a"]
  {
    hide Replay, Admission, Admitted, Crowded, FieldsAt;
    FirstIsAdmitted(Nobody(0), limits);
    FirstIsCrowd(limits);
    NobodyLists();
    AnotherFieldIsTooMany(Replay([Nobody(0)], limits), limits);
  }

  lemma EverythingFills()
    ensures var r := Admitted(NOTHING, Everything(0).sub, None);
            && r.entries.Keys == {SubKey(0, "s")} == UnfilteredOn(r.entries, TOPIC)
            && r.listed == {0} && r.patterns == {TOPIC}
  {
    hide AsStr, Parse;
    TopicIsItself();
  }

  /** The per-pattern limit turns away a filter that would not enter the bitmap it counts. */
  lemma PatternLimitCountsAnotherBitmap(limits: Limits)
    requires HasRoomForOne(limits) && limits.maxTotalSubscriptions >= 2 && limits.maxSubscriptionsPerPattern == 1
    ensures Admission(Replay([Everything(0)], limits), Nobody(1).sub, limits) == Fail(PerPatternLimit)
    ensures !GoesUnfiltered(Nobody(1).sub.filter)
  {
    hide Replay, Admitted, AsStr, Parse, UnfilteredOn;
    TopicIsItself();
    FirstIsAdmitted(Everything(0), limits);
    EverythingFills();
    var entries := Replay([Everything(0)], limits).entries;
    assert |entries| == |entries.Keys|;
  }
}

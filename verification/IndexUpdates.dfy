/** What inserting and removing one slot does to the parts of the index. */
module IndexUpdates {
  import opened Wrappers
  import opened Text
  import opened TopicPatterns
  import opened Filters
  import opened FilterKeys
  import opened IndexState

  ghost function LiveMap(slots: Slab, bySub: map<SubKey, nat>): Live {
    map k | k in bySub && LiveAt(slots, bySub[k]) :: slots[bySub[k]].value
  }

  function InsertSlot(slots: Slab, id: nat, s: DispatchSlot): Slab
    requires id <= |slots|
  {
    if id < |slots| then slots[id := Some(s)] else slots + [Some(s)]
  }

  function FreeAfterAlloc(free: seq<nat>): seq<nat> {
    if free != [] then free[..|free| - 1] else free
  }

  /** `id` entered the bitmaps of `keys` and nothing else changed. */
  ghost predicate Marked(before: Bitmaps, after: Bitmaps, keys: seq<string>, id: nat) {
    forall k :: Bitmap(after, k) == Bitmap(before, k) + (if k in keys then {id} else {})
  }

  /** `id` left the bitmaps of `keys` and nothing else changed. */
  ghost predicate Unmarked(before: Bitmaps, after: Bitmaps, keys: seq<string>, id: nat) {
    forall k :: Bitmap(after, k) == Bitmap(before, k) - (if k in keys then {id} else {})
  }

  lemma MarkedInTurn(a: Bitmaps, b: Bitmaps, c: Bitmaps, first: seq<string>, second: seq<string>, id: nat)
    requires Marked(a, b, first, id) && Marked(b, c, second, id)
    ensures Marked(a, c, first + second, id)
  {
  }

  lemma MarkedOnce(m: Bitmaps, k: string, id: nat)
    ensures Marked(m, m[k := Bitmap(m, k) + {id}], [k], id)
  {
  }

  /** The parts of the index that walking a filter writes. */
  datatype Parts = Parts(index: Bitmaps, unfiltered: Bitmaps, fields: map<string, seq<string>>, keyCount: nat)

  /** Walking a filter entered `id` under `keys`, listed `listed`, and put it among the
      unfiltered when part of the filter cannot be indexed. */
  ghost predicate Entered(before: Parts, after: Parts, pattern: string, keys: seq<string>, unindexed: bool,
                          listed: seq<string>, id: nat) {
    && Marked(before.index, after.index, keys, id)
    && Marked(before.unfiltered, after.unfiltered, if unindexed then [pattern] else [], id)
    && FieldsAt(after.fields, pattern) == AddFields(FieldsAt(before.fields, pattern), listed)
    && (forall p :: p != pattern ==> FieldsAt(after.fields, p) == FieldsAt(before.fields, p))
    && after.fields.Keys <= before.fields.Keys + {pattern}
    && after.keyCount == before.keyCount + |keys|
  }

  /** Walking both sides of an And or an Or is walking the whole. */
  lemma EnteredInTurn(a: Parts, b: Parts, c: Parts, pattern: string, l: FilterExpr, r: FilterExpr, id: nat)
    requires Entered(a, b, pattern, KeysOf(pattern, l), HasUnindexedPart(l), IndexedFields(l), id)
    requires Entered(b, c, pattern, KeysOf(pattern, r), HasUnindexedPart(r), IndexedFields(r), id)
    ensures Entered(a, c, pattern, KeysOf(pattern, l) + KeysOf(pattern, r), HasUnindexedPart(l) || HasUnindexedPart(r),
                    IndexedFields(l) + IndexedFields(r), id)
  {
    AddFieldsConcat(FieldsAt(a.fields, pattern), IndexedFields(l), IndexedFields(r));
    MarkedInTurn(a.index, b.index, c.index, KeysOf(pattern, l), KeysOf(pattern, r), id);
  }

  // ---------- Insertion ----------

  /** What entering a whole slot did to the bitmaps, whether or not it has a filter. */
  ghost predicate SlotEntered(before: Parts, after: Parts, s: DispatchSlot, id: nat) {
    var p := AsStr(s.topic);
    match s.filter
    case None =>
      Marked(before.unfiltered, after.unfiltered, [p], id) && after.index == before.index
          && after.fields == before.fields
      && after.keyCount == before.keyCount
    case Some(f) => Entered(before, after, p, KeysOf(p, f), HasUnindexedPart(f), IndexedFields(f), id)
  }

  lemma SlotEnteredEffect(before: Parts, after: Parts, s: DispatchSlot, id: nat)
    requires SlotEntered(before, after, s, id)
    ensures Marked(before.index, after.index, SlotKeys(s), id)
    ensures Marked(before.unfiltered, after.unfiltered, if GoesUnfiltered(s.filter) then [AsStr(s.topic)] else [], id)
    ensures after.keyCount == before.keyCount + |SlotKeys(s)|
    ensures forall p ::
              |Bitmap(after.unfiltered, p)| <=
              |Bitmap(before.unfiltered, p)| + (if p == AsStr(s.topic) then 1 else 0)
  {
    var marks := if GoesUnfiltered(s.filter) then [AsStr(s.topic)] else [];
    forall p
      ensures |Bitmap(after.unfiltered, p)| <=
              |Bitmap(before.unfiltered, p)| + (if p == AsStr(s.topic) then 1 else 0)
    {
      MarkedGrowsByOne(before.unfiltered, after.unfiltered, marks, id, p);
    }
  }

  /** The pre-flight field check bounds the field lists after insertion. */
  lemma SlotEnteredFields(before: Parts, after: Parts, s: DispatchSlot, id: nat, slots: Slab, cap: nat)
    requires SlotEntered(before, after, s, id) && FieldsOk(before.fields, slots)
    requires forall p :: |FieldsAt(before.fields, p)| <= cap
    requires s.filter.Some? ==> |FieldsAt(before.fields, AsStr(s.topic))| + |FieldsOf(s.filter.value)| <= cap
    ensures forall p :: |FieldsAt(after.fields, p)| <= cap
  {
    if s.filter.Some? {
      FieldEstimate(FieldsAt(before.fields, AsStr(s.topic)), s.filter.value);
    }
  }

  /** With fewer than 2^32 live subscriptions there is a free slot or an unused id. */
  lemma RoomForOneMore(slots: Slab, free: seq<nat>, bySub: map<SubKey, nat>)
    requires SlabOk(slots, free, bySub) && |bySub| < 0x1_0000_0000
    ensures free != [] || |slots| < 0x1_0000_0000
    ensures AllocId(|slots|, free) <= |slots| && !LiveAt(slots, AllocId(|slots|, free))
    ensures free == [] ==> |slots| == |bySub|
  {
    AllocIdIsFresh(slots, free, bySub);
    if free != [] {
      assert free[|free| - 1] in free;
    }
  }

  lemma AllocKeepsSlab(slots: Slab, free: seq<nat>, bySub: map<SubKey, nat>, s: DispatchSlot)
    requires SlabOk(slots, free, bySub) && KeyOf(s) !in bySub
    requires free != [] || |slots| < U32_RANGE
    ensures var id := AllocId(|slots|, free);
            && id <= |slots| && !LiveAt(slots, id)
            && SlabOk(InsertSlot(slots, id, s), FreeAfterAlloc(free), bySub[KeyOf(s) := id])
            && LiveMap(InsertSlot(slots, id, s), bySub[KeyOf(s) := id]) == LiveMap(slots, bySub)[KeyOf(s) := s]
  {
    var id := AllocId(|slots|, free);
    AllocIdIsFresh(slots, free, bySub);
    AllocKeepsFreeList(slots, free, s);
    PlaceKeepsOwners(slots, bySub, id, s);
    assert (bySub[KeyOf(s) := id]).Keys == bySub.Keys + {KeyOf(s)};
  }

  lemma AllocKeepsFreeList(slots: Slab, free: seq<nat>, s: DispatchSlot)
    requires FreeListOk(slots, free)
    requires free != [] || |slots| < U32_RANGE
    ensures var id := AllocId(|slots|, free);
            && id <= |slots|
            && FreeListOk(InsertSlot(slots, id, s), FreeAfterAlloc(free))
            && |InsertSlot(slots, id, s)| - |FreeAfterAlloc(free)| == |slots| - |free| + 1
  {
    if free != [] {
      var id := AllocId(|slots|, free);
      assert id in free;
      FrontOfDistinct(free);
      forall i: nat ensures i in FreeAfterAlloc(free) <==> DeadAt(InsertSlot(slots, id, s), i) {
        assert i in free <==> DeadAt(slots, i);
      }
    } else {
      forall i: nat ensures !DeadAt(InsertSlot(slots, |slots|, s), i) {
        assert i in free <==> DeadAt(slots, i);
      }
    }
  }

  lemma PlaceKeepsOwners(slots: Slab, bySub: map<SubKey, nat>, id: nat, s: DispatchSlot)
    requires OwnersOk(slots, bySub) && KeyOf(s) !in bySub
    requires id <= |slots| && !LiveAt(slots, id)
    ensures OwnersOk(InsertSlot(slots, id, s), bySub[KeyOf(s) := id])
    ensures LiveMap(InsertSlot(slots, id, s), bySub[KeyOf(s) := id]) == LiveMap(slots, bySub)[KeyOf(s) := s]
  {
    var slots', bySub' := InsertSlot(slots, id, s), bySub[KeyOf(s) := id];
    forall k | k in bySub' ensures LiveAt(slots', bySub'[k]) && KeyOf(slots'[bySub'[k]].value) == k {
      if k != KeyOf(s) {
        assert LiveAt(slots, bySub[k]) && slots'[bySub[k]] == slots[bySub[k]];
      }
    }
    forall i: nat | LiveAt(slots', i)
      ensures KeyOf(slots'[i].value) in bySub' && bySub'[KeyOf(slots'[i].value)] == i
    {
      if i != id {
        assert LiveAt(slots, i) && slots'[i] == slots[i];
      }
    }
  }

  lemma FrontOfDistinct(free: seq<nat>)
    requires NoDuplicates(free) && free != []
    ensures NoDuplicates(free[..|free| - 1])
    ensures forall i :: i in free[..|free| - 1] <==> i in free && i != free[|free| - 1]
  {
    var n := |free| - 1;
    assert forall j :: 0 <= j < n ==> free[..n][j] == free[j];
    forall i | i in free && i != free[n] ensures i in free[..n] {
      var j :| 0 <= j < |free| && free[j] == i;
      assert free[..n][j] == i;
    }
  }

  lemma InsertKeepsIndex(index: Bitmaps, index': Bitmaps, slots: Slab, id: nat, s: DispatchSlot)
    requires IndexOk(index, slots) && id <= |slots| && !LiveAt(slots, id)
    requires Marked(index, index', SlotKeys(s), id)
    ensures IndexOk(index', InsertSlot(slots, id, s))
  {
    var slots' := InsertSlot(slots, id, s);
    assert forall i: nat :: LiveAt(slots', i) <==> i == id || LiveAt(slots, i);
    assert forall i: nat :: i != id && LiveAt(slots, i) ==> slots'[i] == slots[i];
    assert forall k, i: nat :: i in Bitmap(index', k) <==> i in Bitmap(index, k) || (i == id && k in SlotKeys(s));
  }

  lemma InsertKeepsUnfiltered(unf: Bitmaps, unf': Bitmaps, slots: Slab, id: nat, s: DispatchSlot)
    requires UnfilteredOk(unf, slots) && id <= |slots| && !LiveAt(slots, id)
    requires Marked(unf, unf', if GoesUnfiltered(s.filter) then [AsStr(s.topic)] else [], id)
    ensures UnfilteredOk(unf', InsertSlot(slots, id, s))
  {
    var slots' := InsertSlot(slots, id, s);
    assert forall i: nat :: LiveAt(slots', i) <==> i == id || LiveAt(slots, i);
    assert forall i: nat :: i != id && LiveAt(slots, i) ==> slots'[i] == slots[i];
    assert forall k, i: nat :: i in Bitmap(unf', k) <==>
        i in Bitmap(unf, k) || (i == id && GoesUnfiltered(s.filter) && k == AsStr(s.topic));
  }

  lemma InsertKeepsPatterns(patterns: map<string, TopicPattern>, slots: Slab, id: nat, s: DispatchSlot)
    requires PatternsOk(patterns, slots) && id <= |slots| && !LiveAt(slots, id) && Parsed(s.topic)
    ensures var p := AsStr(s.topic);
            PatternsOk(if p in patterns then patterns else patterns[p := s.topic], InsertSlot(slots, id, s))
  {
    var slots' := InsertSlot(slots, id, s);
    assert forall i: nat :: LiveAt(slots', i) ==> i == id || (LiveAt(slots, i) && slots'[i] == slots[i]);
  }

  lemma InsertKeepsFields(before: Parts, after: Parts, slots: Slab, id: nat, s: DispatchSlot)
    requires FieldsOk(before.fields, slots) && id <= |slots| && !LiveAt(slots, id)
    requires SlotEntered(before, after, s, id)
    ensures FieldsOk(after.fields, InsertSlot(slots, id, s))
  {
    var slots' := InsertSlot(slots, id, s);
    var p := AsStr(s.topic);
    if s.filter.Some? {
      AddFieldsMembers(FieldsAt(before.fields, p), IndexedFields(s.filter.value));
    }
    forall q | q in after.fields ensures NoDuplicates(after.fields[q]) {
      assert after.fields[q] == FieldsAt(after.fields, q);
      if q != p || s.filter.None? {
        assert FieldsAt(after.fields, q) == FieldsAt(before.fields, q);
      }
    }
    forall i: nat | LiveAt(slots', i) ensures FieldsListed(after.fields, slots'[i].value) {
      if i != id {
        assert LiveAt(slots, i) && slots'[i] == slots[i];
        assert FieldsListed(before.fields, slots[i].value);
      }
    }
  }

  lemma InsertKeepsTracked(tracked: map<SubKey, seq<string>>, bySub: map<SubKey, nat>, slots: Slab, id: nat,
                           s: DispatchSlot)
    requires TrackedOk(tracked, bySub, slots) && OwnersOk(slots, bySub) && id <= |slots| && !LiveAt(slots, id)
    requires KeyOf(s) !in bySub
    ensures TrackedOk(tracked[KeyOf(s) := SlotKeys(s)], bySub[KeyOf(s) := id], InsertSlot(slots, id, s))
    ensures TotalKeys(tracked[KeyOf(s) := SlotKeys(s)]) == TotalKeys(tracked) + |SlotKeys(s)|
  {
    TotalKeysWith(tracked, KeyOf(s), SlotKeys(s));
  }

  lemma InsertKeepsExactFlags(slots: Slab, id: nat, s: DispatchSlot)
    requires ExactFlagsOk(slots) && id <= |slots| && s.bitmapExact == FilterExactOrAbsent(s.filter)
    ensures ExactFlagsOk(InsertSlot(slots, id, s))
  {
  }

  ghost predicate CleanSlot(s: DispatchSlot) {
    FreeOf(AsStr(s.topic), NUL) && (s.filter.Some? ==> AllFreeOf(IndexedFields(s.filter.value), NUL))
  }

  lemma SlotEnteredKeepsNames(before: Parts, after: Parts, patterns: map<string, TopicPattern>, s: DispatchSlot,
                              id: nat)
    requires CleanNames(patterns, before.fields) && CleanSlot(s) && SlotEntered(before, after, s, id)
    ensures CleanNames(WithPattern(patterns, s.topic), after.fields)
  {
    if s.filter.Some? {
      var p, f := AsStr(s.topic), s.filter.value;
      AddFieldsMembers(FieldsAt(before.fields, p), IndexedFields(f));
      forall q | q in after.fields ensures AllFreeOf(after.fields[q], NUL) {
        assert after.fields[q] == FieldsAt(after.fields, q);
        ListedNamesAreFree(FieldsAt(before.fields, q), IndexedFields(f), after.fields[q]);
      }
    }
  }

  lemma ListedNamesAreFree(listed: seq<string>, more: seq<string>, all: seq<string>)
    requires AllFreeOf(listed, NUL) && AllFreeOf(more, NUL)
    requires forall x :: x in all ==> x in listed || x in more
    ensures AllFreeOf(all, NUL)
  {
    forall i | 0 <= i < |all| ensures FreeOf(all[i], NUL) {
      assert all[i] in all;
    }
  }

  lemma MarkedGrowsByOne(before: Bitmaps, after: Bitmaps, keys: seq<string>, id: nat, k: string)
    requires Marked(before, after, keys, id)
    ensures |Bitmap(after, k)| <= |Bitmap(before, k)| + (if k in keys then 1 else 0)
  {
    if k in keys && id in Bitmap(before, k) {
      assert Bitmap(after, k) == Bitmap(before, k);
    }
  }

  // ---------- The whole index ----------

  datatype IndexData = IndexData(
    walked: Parts,
    patterns: map<string, TopicPattern>,
    tracked: map<SubKey, seq<string>>,
    slots: Slab,
    free: seq<nat>,
    bySub: map<SubKey, nat>)

  /** The parts agree: everything but the limits. */
  ghost predicate DataOk(d: IndexData) {
    && SlabOk(d.slots, d.free, d.bySub)
    && IndexOk(d.walked.index, d.slots)
    && UnfilteredOk(d.walked.unfiltered, d.slots)
    && PatternsOk(d.patterns, d.slots)
    && FieldsOk(d.walked.fields, d.slots)
    && TrackedOk(d.tracked, d.bySub, d.slots)
    && ExactFlagsOk(d.slots)
    && d.walked.keyCount == TotalKeys(d.tracked)
  }

  ghost function Contents(d: IndexData): Live {
    LiveMap(d.slots, d.bySub)
  }

  lemma ContentsAreKeyed(d: IndexData)
    requires DataOk(d)
    ensures Contents(d).Keys == d.bySub.Keys && KeyedByOwner(Contents(d))
    ensures forall k :: k in d.bySub ==> LiveAt(d.slots, d.bySub[k]) && Contents(d)[k] == d.slots[d.bySub[k]].value
  {
  }

  /** The caps on the walked parts. */
  ghost predicate WalkedCapsOk(w: Parts, limits: Limits) {
    && (forall p :: |Bitmap(w.unfiltered, p)| <= limits.maxSubscriptionsPerPattern)
    && (forall p :: |FieldsAt(w.fields, p)| <= limits.maxFieldsPerPattern)
    && w.keyCount <= limits.maxCompositeKeys
  }

  ghost predicate CapsOk(d: IndexData, limits: Limits) {
    && |d.bySub| <= limits.maxTotalSubscriptions
    && |d.slots| <= limits.maxTotalSubscriptions && |d.slots| <= U32_RANGE
    && |d.patterns| <= limits.maxPatterns
    && WalkedCapsOk(d.walked, limits)
  }

  /** The first limit that one more subscription would break. */
  function Verdict(d: IndexData, s: Subscription, limits: Limits): Outcome<CapacityError> {
    var p := AsStr(s.topic);
    if |d.bySub| >= limits.maxTotalSubscriptions then Fail(GlobalLimit)
    else if p !in d.patterns && |d.patterns| >= limits.maxPatterns then Fail(PatternLimit)
    else if |Bitmap(d.walked.unfiltered, p)| >= limits.maxSubscriptionsPerPattern then Fail(PerPatternLimit)
    else if d.walked.keyCount + (if s.filter.None? then 0 else CountKeys(s.filter.value)) > limits.maxCompositeKeys
    then Fail(CompositeKeyLimit)
    else if s.filter.Some? && |FieldsAt(d.walked.fields, p)| + |FieldsOf(s.filter.value)| > limits.maxFieldsPerPattern
    then Fail(FieldLimit)
    else Pass
  }

  function WithPattern(patterns: map<string, TopicPattern>, topic: TopicPattern): map<string, TopicPattern> {
    if AsStr(topic) in patterns then patterns else patterns[AsStr(topic) := topic]
  }

  /** The ids a slab can hand out suffice for one more subscription that passes. */
  predicate HasRoom(d: IndexData, limits: Limits) {
    limits.maxTotalSubscriptions <= U32_RANGE || |d.bySub| < U32_RANGE
  }

  /** One slot was allocated, entered and recorded. */
  ghost predicate Inserted(d: IndexData, d': IndexData, s: DispatchSlot) {
    var id := AllocId(|d.slots|, d.free);
    && id <= |d.slots|
    && d'.slots == InsertSlot(d.slots, id, s)
    && d'.free == FreeAfterAlloc(d.free)
    && d'.bySub == d.bySub[KeyOf(s) := id]
    && d'.patterns == WithPattern(d.patterns, s.topic)
    && d'.tracked == d.tracked[KeyOf(s) := SlotKeys(s)]
    && SlotEntered(d.walked, d'.walked, s, id)
  }

  /** The names an insertion adds for good: its pattern and its indexed fields. */
  ghost predicate NamesGrown(d: IndexData, d': IndexData, sub: Subscription) {
    && d'.patterns == WithPattern(d.patterns, sub.topic)
    && forall p :: FieldsAt(d'.walked.fields, p) ==
                   if p == AsStr(sub.topic) && sub.filter.Some?
                   then AddFields(FieldsAt(d.walked.fields, p), IndexedFields(sub.filter.value))
                   else FieldsAt(d.walked.fields, p)
  }

  lemma InsertGrowsNames(d: IndexData, d': IndexData, sub: Subscription, node: Option<nat>)
    requires Inserted(d, d', SlotFor(sub, node))
    ensures NamesGrown(d, d', sub)
  {
  }

  lemma RoomInData(d: IndexData, sub: Subscription, limits: Limits)
    requires DataOk(d) && Verdict(d, sub, limits).Pass? && HasRoom(d, limits)
    ensures |d.bySub| < U32_RANGE
    ensures d.free != [] || |d.slots| < U32_RANGE
    ensures FreeListOk(d.slots, d.free)
  {
    RoomForOneMore(d.slots, d.free, d.bySub);
  }

  lemma InsertKeepsData(d: IndexData, d': IndexData, sub: Subscription, node: Option<nat>)
    requires DataOk(d) && |d.bySub| < U32_RANGE
    requires Parsed(sub.topic) && KeyOfSub(sub) !in d.bySub
    requires Inserted(d, d', SlotFor(sub, node))
    ensures DataOk(d')
    ensures Contents(d') == Contents(d)[KeyOfSub(sub) := SlotFor(sub, node)]
    ensures |d'.bySub| == |d.bySub| + 1
  {
    hide OwnersOk, FreeListOk, IndexOk, UnfilteredOk, PatternsOk, FieldsOk, TrackedOk, ExactFlagsOk, SlotEntered;
    var s, id := SlotFor(sub, node), AllocId(|d.slots|, d.free);
    RoomForOneMore(d.slots, d.free, d.bySub);
    CountWithKey(d.bySub, KeyOf(s), id);
    AllocKeepsSlab(d.slots, d.free, d.bySub, s);
    SlotEnteredEffect(d.walked, d'.walked, s, id);
    InsertKeepsIndex(d.walked.index, d'.walked.index, d.slots, id, s);
    InsertKeepsUnfiltered(d.walked.unfiltered, d'.walked.unfiltered, d.slots, id, s);
    InsertKeepsPatterns(d.patterns, d.slots, id, s);
    InsertKeepsFields(d.walked, d'.walked, d.slots, id, s);
    InsertKeepsTracked(d.tracked, d.bySub, d.slots, id, s);
    InsertKeepsExactFlags(d.slots, id, s);
  }

  /** Insertion keeps the parts in agreement exactly when the pair is not live yet: else
      the old slot stays live without an owner. */
  lemma InsertNeedsFreshPair(d: IndexData, d': IndexData, sub: Subscription, node: Option<nat>)
    requires DataOk(d) && |d.bySub| < U32_RANGE && Parsed(sub.topic)
    requires Inserted(d, d', SlotFor(sub, node))
    ensures DataOk(d') <==> KeyOfSub(sub) !in d.bySub
  {
    hide FreeListOk, IndexOk, UnfilteredOk, PatternsOk, FieldsOk, TrackedOk, ExactFlagsOk, SlotEntered;
    var k := KeyOfSub(sub);
    if k !in d.bySub {
      InsertKeepsData(d, d', sub, node);
    } else {
      RoomForOneMore(d.slots, d.free, d.bySub);
      assert LiveAt(d'.slots, d.bySub[k]) && KeyOf(d'.slots[d.bySub[k]].value) == k;
      assert !OwnersOk(d'.slots, d'.bySub);
    }
  }

  lemma EnterKeepsWalkedCaps(before: Parts, after: Parts, s: DispatchSlot, id: nat, slots: Slab, limits: Limits)
    requires WalkedCapsOk(before, limits) && FieldsOk(before.fields, slots) && SlotEntered(before, after, s, id)
    requires |Bitmap(before.unfiltered, AsStr(s.topic))| < limits.maxSubscriptionsPerPattern
    requires before.keyCount + (if s.filter.None? then 0 else CountKeys(s.filter.value)) <= limits.maxCompositeKeys
    requires s.filter.Some? ==>
               |FieldsAt(before.fields, AsStr(s.topic))| + |FieldsOf(s.filter.value)| <= limits.maxFieldsPerPattern
    ensures WalkedCapsOk(after, limits)
  {
    hide FieldsOk, SlotEntered;
    SlotEnteredEffect(before, after, s, id);
    SlotEnteredFields(before, after, s, id, slots, limits.maxFieldsPerPattern);
    if s.filter.Some? {
      CountKeysIsExact(AsStr(s.topic), s.filter.value);
    }
  }

  lemma InsertKeepsCaps(d: IndexData, d': IndexData, sub: Subscription, node: Option<nat>, limits: Limits)
    requires DataOk(d) && CapsOk(d, limits) && Verdict(d, sub, limits).Pass? && |d.bySub| < U32_RANGE
    requires KeyOfSub(sub) !in d.bySub
    requires Inserted(d, d', SlotFor(sub, node))
    ensures CapsOk(d', limits)
  {
    hide OwnersOk, FreeListOk, IndexOk, UnfilteredOk, PatternsOk, FieldsOk, TrackedOk, ExactFlagsOk, SlotEntered,
         WalkedCapsOk;
    var s, id := SlotFor(sub, node), AllocId(|d.slots|, d.free);
    InsertCounts(d, s);
    EnterKeepsWalkedCaps(d.walked, d'.walked, s, id, d.slots, limits);
  }

  /** An admitted subscription keeps agreement and caps exactly when its pair is fresh. */
  lemma InsertKeepsAllIfFresh(d: IndexData, d': IndexData, sub: Subscription, node: Option<nat>, limits: Limits)
    requires DataOk(d) && CapsOk(d, limits) && Verdict(d, sub, limits).Pass? && HasRoom(d, limits)
    requires Parsed(sub.topic) && Inserted(d, d', SlotFor(sub, node))
    ensures DataOk(d') <==> KeyOfSub(sub) !in Contents(d)
    ensures KeyOfSub(sub) !in Contents(d) ==>
              && CapsOk(d', limits) && |d'.bySub| == |d.bySub| + 1
              && Contents(d') == Contents(d)[KeyOfSub(sub) := SlotFor(sub, node)]
  {
    hide DataOk, CapsOk, Inserted, Contents, Verdict;
    ContentsAreKeyed(d);
    RoomInData(d, sub, limits);
    InsertNeedsFreshPair(d, d', sub, node);
    if KeyOfSub(sub) !in d.bySub {
      InsertKeepsData(d, d', sub, node);
      InsertKeepsCaps(d, d', sub, node, limits);
    }
  }

  lemma InsertCounts(d: IndexData, s: DispatchSlot)
    requires KeyOf(s) !in d.bySub && AllocId(|d.slots|, d.free) <= |d.slots|
    requires SlabOk(d.slots, d.free, d.bySub)
    ensures |d.bySub[KeyOf(s) := AllocId(|d.slots|, d.free)]| == |d.bySub| + 1
    ensures |WithPattern(d.patterns, s.topic)| == |d.patterns| + (if AsStr(s.topic) in d.patterns then 0 else 1)
    ensures |InsertSlot(d.slots, AllocId(|d.slots|, d.free), s)| <= |d.slots| + (if d.free == [] then 1 else 0)
    ensures d.free == [] ==> |d.slots| == |d.bySub|
  {
    hide WithPattern, OwnersOk;
    var id := AllocId(|d.slots|, d.free);
    assert id in d.free <==> DeadAt(d.slots, id);
    CountWithKey(d.bySub, KeyOf(s), AllocId(|d.slots|, d.free));
    CountWithPattern(d.patterns, s.topic);
  }

  lemma CountWithKey(bySub: map<SubKey, nat>, k: SubKey, id: nat)
    requires k !in bySub
    ensures |bySub[k := id]| == |bySub| + 1
  {
    assert bySub[k := id].Keys == bySub.Keys + {k};
  }

  lemma CountWithPattern(patterns: map<string, TopicPattern>, topic: TopicPattern)
    ensures |WithPattern(patterns, topic)| == |patterns| + (if AsStr(topic) in patterns then 0 else 1)
  {
    assert patterns[AsStr(topic) := topic].Keys == patterns.Keys + {AsStr(topic)};
  }

  lemma InsertKeepsNames(d: IndexData, d': IndexData, s: DispatchSlot)
    requires Inserted(d, d', s)
    ensures CleanNames(d.patterns, d.walked.fields) && CleanSlot(s) ==> CleanNames(d'.patterns, d'.walked.fields)
  {
    if CleanNames(d.patterns, d.walked.fields) && CleanSlot(s) {
      SlotEnteredKeepsNames(d.walked, d'.walked, d.patterns, s, AllocId(|d.slots|, d.free));
    }
  }

  /** One subscription was unrecorded, cleared from its tracked keys and from the
      unfiltered of pattern `p`, and its slot freed. */
  ghost predicate RemovedUnder(d: IndexData, d': IndexData, k: SubKey, p: string) {
    && k in d.bySub && LiveAt(d.slots, d.bySub[k])
    && var id, s := d.bySub[k], d.slots[d.bySub[k]].value;
    && d'.slots == d.slots[id := None]
    && d'.free == d.free + [id]
    && d'.bySub == d.bySub - {k}
    && d'.patterns == d.patterns && d'.walked.fields == d.walked.fields
    && d'.tracked == d.tracked - {k}
    && Unmarked(d.walked.unfiltered, d'.walked.unfiltered, [p], id)
    && Unmarked(d.walked.index, d'.walked.index, SlotKeys(s), id)
    && d'.walked.keyCount == d.walked.keyCount - |SlotKeys(s)|
  }

  /** The caller names the pattern to clear; it matters only to an unfiltered slot. */
  predicate ClearsUnfiltered(s: DispatchSlot, p: string) {
    p == AsStr(s.topic) || !GoesUnfiltered(s.filter)
  }

  ghost predicate Removed(d: IndexData, d': IndexData, k: SubKey) {
    && k in d.bySub && LiveAt(d.slots, d.bySub[k])
    && RemovedUnder(d, d', k, AsStr(d.slots[d.bySub[k]].value.topic))
  }

  lemma RemovedFromItsPattern(d: IndexData, d': IndexData, k: SubKey, p: string)
    requires DataOk(d) && RemovedUnder(d, d', k, p) && ClearsUnfiltered(d.slots[d.bySub[k]].value, p)
    ensures Removed(d, d', k)
  {
    hide SlabOk, IndexOk, PatternsOk, FieldsOk, TrackedOk, ExactFlagsOk;
    var id := d.bySub[k];
    assert forall q :: id in Bitmap(d.walked.unfiltered, q) <==>
        AsStr(d.slots[id].value.topic) == q && GoesUnfiltered(d.slots[id].value.filter);
  }

  /** Removal keeps the parts in agreement exactly when the named pattern is the stored
      one or the slot was in no unfiltered bitmap: else the bitmap keeps a freed id. */
  lemma RemovalNeedsItsPattern(d: IndexData, d': IndexData, k: SubKey, p: string)
    requires DataOk(d) && RemovedUnder(d, d', k, p)
    ensures DataOk(d') <==> ClearsUnfiltered(d.slots[d.bySub[k]].value, p)
  {
    var id, s := d.bySub[k], d.slots[d.bySub[k]].value;
    if ClearsUnfiltered(s, p) {
      RemovedFromItsPattern(d, d', k, p);
      RemoveKeepsData(d, d', k);
    } else {
      assert id in Bitmap(d.walked.unfiltered, AsStr(s.topic));
      assert id in Bitmap(d'.walked.unfiltered, AsStr(s.topic)) && !LiveAt(d'.slots, id);
      assert !UnfilteredOk(d'.walked.unfiltered, d'.slots);
    }
  }

  lemma RemoveKeepsData(d: IndexData, d': IndexData, k: SubKey)
    requires DataOk(d) && Removed(d, d', k)
    ensures DataOk(d')
    ensures Contents(d') == Contents(d) - {k}
    ensures |d'.bySub| == |d.bySub| - 1
  {
    assert d'.bySub.Keys == d.bySub.Keys - {k};
    assert |d'.bySub.Keys| == |d.bySub.Keys| - 1;
    var id := d.bySub[k];
    FreeKeepsSlab(d.slots, d.free, d.bySub, k);
    RemoveKeepsIndex(d.walked.index, d'.walked.index, d.slots, id);
    RemoveKeepsUnfiltered(d.walked.unfiltered, d'.walked.unfiltered, d.slots, id);
    RemoveKeepsNames(d.patterns, d.walked.fields, d.slots, id);
    RemoveKeepsTracked(d.tracked, d.slots, d.bySub, k);
  }

  /** The old slot of a pair registered again outlives the pair: unsubscribing frees the new
      slot only, the old one stays live in all its bitmaps, and nothing names it any more. */
  lemma OldSlotOutlivesItsPair(d: IndexData, d': IndexData, d'': IndexData, s: DispatchSlot, p: string)
    requires DataOk(d) && |d.bySub| < U32_RANGE && KeyOf(s) in d.bySub
    requires Inserted(d, d', s) && RemovedUnder(d', d'', KeyOf(s), p)
    ensures var id := d.bySub[KeyOf(s)];
            && LiveAt(d''.slots, id) && d''.slots[id] == d.slots[id]
            && (forall k :: k in d''.bySub ==> d''.bySub[k] != id)
            && (forall k :: id in Bitmap(d''.walked.index, k) <==> id in Bitmap(d.walked.index, k))
            && (forall q :: id in Bitmap(d''.walked.unfiltered, q) <==> id in Bitmap(d.walked.unfiltered, q))
  {
    hide FreeListOk, IndexOk, UnfilteredOk, PatternsOk, FieldsOk, TrackedOk, ExactFlagsOk, SlotEntered, SlotKeys;
    var id, newId := d.bySub[KeyOf(s)], AllocId(|d.slots|, d.free);
    RoomForOneMore(d.slots, d.free, d.bySub);
    SlotEnteredEffect(d.walked, d'.walked, s, newId);
    assert forall k :: k in d.bySub ==> LiveAt(d.slots, d.bySub[k]) && KeyOf(d.slots[d.bySub[k]].value) == k;
  }

  /** The tracked list is the slot's own keys, and the counter covers it. */
  lemma TrackedKeysOf(d: IndexData, k: SubKey)
    requires DataOk(d) && k in d.bySub
    ensures LiveAt(d.slots, d.bySub[k]) && k in d.tracked
    ensures d.tracked[k] == SlotKeys(d.slots[d.bySub[k]].value)
    ensures d.walked.keyCount >= |d.tracked[k]|
  {
    RemoveKeepsTracked(d.tracked, d.slots, d.bySub, k);
  }

  lemma RemoveKeepsCaps(d: IndexData, d': IndexData, k: SubKey, p: string, limits: Limits)
    requires CapsOk(d, limits) && RemovedUnder(d, d', k, p)
    ensures CapsOk(d', limits) && |d'.slots| == |d.slots|
  {
    assert d'.bySub.Keys == d.bySub.Keys - {k};
    assert |d'.bySub.Keys| <= |d.bySub.Keys|;
    forall p ensures |Bitmap(d'.walked.unfiltered, p)| <= |Bitmap(d.walked.unfiltered, p)| {
      SubsetCount(Bitmap(d'.walked.unfiltered, p), Bitmap(d.walked.unfiltered, p));
    }
  }

  lemma RemoveEmptiesContents(d: IndexData, d': IndexData, k: SubKey, p: string)
    requires DataOk(d) && RemovedUnder(d, d', k, p)
    ensures k in Contents(d) && Contents(d)[k] == d.slots[d.bySub[k]].value
    ensures Contents(d') == Contents(d) - {k} && |d'.bySub| == |d.bySub| - 1
  {
    hide IndexOk, UnfilteredOk, PatternsOk, FieldsOk, TrackedOk, ExactFlagsOk;
    FreeKeepsSlab(d.slots, d.free, d.bySub, k);
    assert d'.bySub.Keys == d.bySub.Keys - {k};
    assert |d'.bySub.Keys| == |d.bySub.Keys| - 1;
  }

  /** A removal keeps the caps and the other subscriptions, and agreement exactly when the
      named pattern clears the slot. */
  lemma RemoveUnderExactly(d: IndexData, d': IndexData, k: SubKey, p: string, limits: Limits)
    requires DataOk(d) && CapsOk(d, limits) && RemovedUnder(d, d', k, p)
    ensures k in Contents(d) && (DataOk(d') <==> ClearsUnfiltered(Contents(d)[k], p))
    ensures CapsOk(d', limits) && Contents(d') == Contents(d) - {k} && |d'.bySub| == |d.bySub| - 1
  {
    hide DataOk, CapsOk, RemovedUnder, ClearsUnfiltered, Contents;
    RemoveEmptiesContents(d, d', k, p);
    RemovalNeedsItsPattern(d, d', k, p);
    RemoveKeepsCaps(d, d', k, p, limits);
  }

  lemma StoredOrNot(d: IndexData, k: SubKey)
    requires DataOk(d)
    ensures k in Contents(d) <==> k in d.bySub
    ensures k !in d.bySub ==> Contents(d) == Contents(d) - {k}
  {
    hide DataOk, Contents;
    ContentsAreKeyed(d);
  }

  // ---------- Removal ----------

  lemma FreeKeepsSlab(slots: Slab, free: seq<nat>, bySub: map<SubKey, nat>, k: SubKey)
    requires SlabOk(slots, free, bySub) && k in bySub
    ensures LiveAt(slots, bySub[k])
    ensures SlabOk(slots[bySub[k] := None], free + [bySub[k]], bySub - {k})
    ensures LiveMap(slots[bySub[k] := None], bySub - {k}) == LiveMap(slots, bySub) - {k}
  {
    var id := bySub[k];
    assert LiveAt(slots, id);
    var slots', free', bySub' := slots[id := None], free + [id], bySub - {k};
    assert bySub'.Keys == bySub.Keys - {k};
    assert |bySub'.Keys| == |bySub.Keys| - 1;
    assert FreeListOk(slots', free') by {
      assert id in free <==> DeadAt(slots, id);
      forall i: nat ensures i in free' <==> DeadAt(slots', i) {
        assert i in free <==> DeadAt(slots, i);
      }
    }
    DropKeepsOwners(slots, bySub, k);
  }

  lemma DropKeepsOwners(slots: Slab, bySub: map<SubKey, nat>, k: SubKey)
    requires OwnersOk(slots, bySub) && k in bySub && LiveAt(slots, bySub[k])
    ensures OwnersOk(slots[bySub[k] := None], bySub - {k})
    ensures LiveMap(slots[bySub[k] := None], bySub - {k}) == LiveMap(slots, bySub) - {k}
  {
    var slots', bySub' := slots[bySub[k] := None], bySub - {k};
    forall j | j in bySub' ensures bySub'[j] != bySub[k] && LiveAt(slots', bySub'[j])
        && KeyOf(slots'[bySub'[j]].value) == j {
      assert j in bySub && LiveAt(slots, bySub[j]) && KeyOf(slots[bySub[j]].value) == j;
    }
    forall i: nat | LiveAt(slots', i)
      ensures KeyOf(slots'[i].value) in bySub' && bySub'[KeyOf(slots'[i].value)] == i
    {
      assert LiveAt(slots, i) && i != bySub[k];
    }
  }

  lemma RemoveKeepsIndex(index: Bitmaps, index': Bitmaps, slots: Slab, id: nat)
    requires IndexOk(index, slots) && LiveAt(slots, id)
    requires Unmarked(index, index', SlotKeys(slots[id].value), id)
    ensures IndexOk(index', slots[id := None])
  {
    var slots' := slots[id := None];
    assert forall i: nat :: LiveAt(slots', i) <==> i != id && LiveAt(slots, i);
    forall k, i: nat
      ensures i in Bitmap(index', k) <==> LiveAt(slots', i) && k in SlotKeys(slots'[i].value)
    {
      assert i in Bitmap(index, k) <==> LiveAt(slots, i) && k in SlotKeys(slots[i].value);
    }
  }

  lemma RemoveKeepsUnfiltered(unf: Bitmaps, unf': Bitmaps, slots: Slab, id: nat)
    requires UnfilteredOk(unf, slots) && LiveAt(slots, id)
    requires Unmarked(unf, unf', [AsStr(slots[id].value.topic)], id)
    ensures UnfilteredOk(unf', slots[id := None])
  {
    var slots' := slots[id := None];
    assert forall i: nat :: LiveAt(slots', i) <==> i != id && LiveAt(slots, i);
    forall k, i: nat
      ensures i in Bitmap(unf', k) <==>
              LiveAt(slots', i) && AsStr(slots'[i].value.topic) == k && GoesUnfiltered(slots'[i].value.filter)
    {
      assert i in Bitmap(unf, k) <==>
          LiveAt(slots, i) && AsStr(slots[i].value.topic) == k && GoesUnfiltered(slots[i].value.filter);
    }
  }

  lemma RemoveKeepsNames(patterns: map<string, TopicPattern>, fields: map<string, seq<string>>, slots: Slab, id: nat)
    requires PatternsOk(patterns, slots) && FieldsOk(fields, slots) && ExactFlagsOk(slots) && id < |slots|
    ensures PatternsOk(patterns, slots[id := None]) && FieldsOk(fields, slots[id := None])
            && ExactFlagsOk(slots[id := None])
  {
    assert forall i: nat :: LiveAt(slots[id := None], i) ==> LiveAt(slots, i) && slots[id := None][i] == slots[i];
  }

  lemma RemoveKeepsTracked(tracked: map<SubKey, seq<string>>, slots: Slab, bySub: map<SubKey, nat>, k: SubKey)
    requires TrackedOk(tracked, bySub, slots) && OwnersOk(slots, bySub) && k in bySub && LiveAt(slots, bySub[k])
    ensures TrackedOk(tracked - {k}, bySub - {k}, slots[bySub[k] := None])
    ensures TotalKeys(tracked) == TotalKeys(tracked - {k}) + |SlotKeys(slots[bySub[k]].value)|
  {
    forall j | j in bySub && j != k ensures bySub[j] != bySub[k] {
      assert KeyOf(slots[bySub[j]].value) == j && KeyOf(slots[bySub[k]].value) == k;
    }
    TotalKeysWithout(tracked, k);
  }

  // ---------- Lookups over the bitmaps ----------

  /** `id` is in the union taken for one matching pattern. */
  ghost predicate InPatternUnion(index: Bitmaps, unf: Bitmaps, p: string, fields: seq<string>, g: Getter, id: nat) {
    || id in Bitmap(unf, p)
    || exists i :: 0 <= i < |fields| && HitByField(index, p, fields[i], g, id)
  }

  ghost predicate HitByField(index: Bitmaps, p: string, field: string, g: Getter, id: nat) {
    LookupKey(p, field, g).Some? && id in Bitmap(index, LookupKey(p, field, g).value)
  }

  lemma NoFieldYet(index: Bitmaps, unf: Bitmaps, p: string, g: Getter)
    ensures forall fields: seq<string>, id: nat :: |fields| == 0 ==>
              (InPatternUnion(index, unf, p, fields, g, id) <==> id in Bitmap(unf, p))
  {
  }

  lemma FieldHits(index: Bitmaps, p: string, field: string, g: Getter, id: nat)
    ensures HitByField(index, p, field, g, id) <==>
            g(field).Some? && id in Bitmap(index, MakeKey(p, field, Render(g(field).value)))
  {
  }

  lemma OneMoreField(index: Bitmaps, unf: Bitmaps, p: string, fields: seq<string>, i: nat, g: Getter, id: nat)
    requires i < |fields|
    ensures InPatternUnion(index, unf, p, fields[..i + 1], g, id) <==>
            InPatternUnion(index, unf, p, fields[..i], g, id) || HitByField(index, p, fields[i], g, id)
  {
    var shorter, longer := fields[..i], fields[..i + 1];
    assert forall j :: 0 <= j < i ==> longer[j] == shorter[j];
    assert longer[i] == fields[i];
  }

  /** The union for a pattern holds exactly the live slots of that pattern that hit. */
  lemma PatternUnionMeaning(index: Bitmaps, unf: Bitmaps, slots: Slab, patterns: map<string, TopicPattern>,
                            fields: map<string, seq<string>>, p: string, g: Getter, id: nat)
    requires IndexOk(index, slots) && UnfilteredOk(unf, slots) && PatternsOk(patterns, slots) && FieldsOk(fields, slots)
    requires CleanNames(patterns, fields) && p in patterns
    ensures InPatternUnion(index, unf, p, FieldsAt(fields, p), g, id) <==>
            LiveAt(slots, id) && AsStr(slots[id].value.topic) == p && SlotHit(slots[id].value, g)
  {
    var fs := FieldsAt(fields, p);
    if LiveAt(slots, id) {
      var s := slots[id].value;
      var q := AsStr(s.topic);
      UnionReadsSlotKeys(index, slots, p, fs, g, id);
      match s.filter {
        case None =>
          assert SlotKeys(s) == [];
        case Some(f) =>
          assert FieldsListed(fields, s);
          if q == p {
            HitThroughKeys(p, f, fs, g);
          } else {
            forall i | 0 <= i < |IndexedFields(f)| ensures FreeOf(IndexedFields(f)[i], NUL) {
              assert IndexedFields(f)[i] in FieldsAt(fields, q);
            }
            KeysStayWithTheirPattern(q, f, p, fs, g);
          }
      }
    }
  }

  lemma UnionReadsSlotKeys(index: Bitmaps, slots: Slab, p: string, fs: seq<string>, g: Getter, id: nat)
    requires IndexOk(index, slots) && LiveAt(slots, id)
    ensures (exists i :: 0 <= i < |fs| && HitByField(index, p, fs[i], g, id)) <==>
            SomeKeyLookedUp(SlotKeys(slots[id].value), p, fs, g)
  {
    var keys := SlotKeys(slots[id].value);
    if i :| 0 <= i < |fs| && HitByField(index, p, fs[i], g, id) {
      var j :| 0 <= j < |keys| && keys[j] == LookupKey(p, fs[i], g).value;
      assert LookedUp(keys[j], p, fs, g);
    }
    if j :| 0 <= j < |keys| && LookedUp(keys[j], p, fs, g) {
      var i :| 0 <= i < |fs| && LookupKey(p, fs[i], g) == Some(keys[j]);
      assert HitByField(index, p, fs[i], g, id);
    }
  }

  /** A filter that contributes no field is hit whatever the payload says. */
  lemma {:induction false} NothingIndexedAlwaysHits(f: FilterExpr, g: Getter)
    requires IndexedFields(f) == []
    ensures BitmapHit(f, g) && HasUnindexedPart(f)
  {
    match f
    case And(l, r) =>
      assert |IndexedFields(l)| + |IndexedFields(r)| == 0;
      NothingIndexedAlwaysHits(l, g);
    case Or(l, r) =>
      assert |IndexedFields(l)| + |IndexedFields(r)| == 0;
      NothingIndexedAlwaysHits(l, g);
    case _ =>
  }

  lemma NonEmptyHasMember<T>(s: seq<T>)
    ensures s != [] ==> exists x :: x in s
  {
    if s != [] {
      assert s[0] in s;
    }
  }

  /** While no field is listed for any pattern the payload need not be parsed. */
  lemma LazyParseIsSafe(fields: map<string, seq<string>>, s: DispatchSlot, e: Event, parsed: Option<Json>)
    requires FieldsListed(fields, s)
    requires parsed == e.payload || fields == map[]
    ensures SlotHit(s, CachedGetter(e, parsed)) <==> SlotHit(s, GetterOf(e))
  {
    if parsed != e.payload && s.filter.Some? {
      var f := s.filter.value;
      assert IndexedFields(f) == [] by {
        NonEmptyHasMember(IndexedFields(f));
      }
      NothingIndexedAlwaysHits(f, CachedGetter(e, parsed));
      NothingIndexedAlwaysHits(f, GetterOf(e));
    }
  }

  /** A hit that survives the post-filter is what the index path accepts. */
  lemma PostFilterMeaning(s: DispatchSlot, e: Event)
    requires s.bitmapExact == FilterExactOrAbsent(s.filter)
    ensures IndexAccepts(s.filter, GetterOf(e)) <==>
            SlotHit(s, GetterOf(e)) && (s.bitmapExact || FilterAccepts(s.filter, GetterOf(e)))
  {
    if s.filter.Some? && Evaluate(s.filter.value, GetterOf(e)) {
      NoFalseNegatives(s.filter.value, GetterOf(e));
    }
  }

  // ---------- From slot ids to delivered matches ----------

  /** The bitmap of a full evaluation. */
  ghost predicate HitAt(d: IndexData, e: Event, id: nat) {
    LiveAt(d.slots, id) && Matches(d.slots[id].value.topic, e.topic) && SlotHit(d.slots[id].value, GetterOf(e))
  }

  /** The bitmap of a degraded evaluation. */
  ghost predicate UnfilteredAt(d: IndexData, e: Event, id: nat) {
    LiveAt(d.slots, id) && Matches(d.slots[id].value.topic, e.topic) && GoesUnfiltered(d.slots[id].value.filter)
  }

  lemma PatternUnionIsHits(d: IndexData, p: string, e: Event, parsed: Option<Json>, id: nat)
    requires DataOk(d) && CleanNames(d.patterns, d.walked.fields) && p in d.patterns
    requires parsed == e.payload || d.walked.fields == map[]
    ensures InPatternUnion(d.walked.index, d.walked.unfiltered, p, FieldsAt(d.walked.fields, p),
                           CachedGetter(e, parsed), id) <==>
            LiveAt(d.slots, id) && AsStr(d.slots[id].value.topic) == p && SlotHit(d.slots[id].value, GetterOf(e))
  {
    hide SlabOk, IndexOk, UnfilteredOk, PatternsOk, TrackedOk, ExactFlagsOk, CleanNames, InPatternUnion;
    PatternUnionMeaning(d.walked.index, d.walked.unfiltered, d.slots, d.patterns, d.walked.fields, p,
                        CachedGetter(e, parsed), id);
    if LiveAt(d.slots, id) {
      LazyParseIsSafe(d.walked.fields, d.slots[id].value, e, parsed);
    }
  }

  lemma LiveTopicIsRegistered(d: IndexData, id: nat)
    requires DataOk(d) && LiveAt(d.slots, id)
    ensures AsStr(d.slots[id].value.topic) in d.patterns
    ensures d.patterns[AsStr(d.slots[id].value.topic)] == d.slots[id].value.topic
  {
  }

  lemma UnfilteredBitmapMeaning(d: IndexData, p: string, id: nat)
    requires DataOk(d)
    ensures id in Bitmap(d.walked.unfiltered, p) <==>
            LiveAt(d.slots, id) && AsStr(d.slots[id].value.topic) == p && GoesUnfiltered(d.slots[id].value.filter)
  {
  }

  /** The slot passes the post-filter. */
  predicate Survives(slot: Option<DispatchSlot>, e: Event) {
    slot.Some? && (slot.value.bitmapExact || FilterAccepts(slot.value.filter, GetterOf(e)))
  }

  ghost predicate AllLive(slots: Slab, ids: set<nat>) {
    forall id :: id in ids ==> LiveAt(slots, id)
  }

  ghost function MatchesOf(slots: Slab, ids: set<nat>): set<Match>
    requires AllLive(slots, ids)
  {
    set id | id in ids :: MatchOf(slots[id].value)
  }

  /** Two slots never stand for the same match. */
  lemma OneMoreMatch(slots: Slab, bySub: map<SubKey, nat>, ids: set<nat>, id: nat)
    requires OwnersOk(slots, bySub) && AllLive(slots, ids + {id}) && id !in ids
    ensures AllLive(slots, ids)
    ensures multiset(MatchesOf(slots, ids + {id})) == multiset(MatchesOf(slots, ids))
            + multiset{MatchOf(slots[id].value)}
  {
    assert id in ids + {id};
    assert forall i :: i in ids ==> i in ids + {id};
    var m := MatchOf(slots[id].value);
    forall i | i in ids ensures MatchOf(slots[i].value) != m {
      assert bySub[KeyOf(slots[i].value)] == i && bySub[KeyOf(slots[id].value)] == id;
    }
    assert MatchesOf(slots, ids + {id}) == MatchesOf(slots, ids) + {m};
  }

  lemma OneMoreDelivered(d: IndexData, kept: set<nat>, id: nat)
    requires DataOk(d) && AllLive(d.slots, kept) && id !in kept && LiveAt(d.slots, id)
    ensures AllLive(d.slots, kept + {id})
    ensures multiset(MatchesOf(d.slots, kept + {id})) == multiset(MatchesOf(d.slots, kept))
            + multiset{MatchOf(d.slots[id].value)}
  {
    OneMoreMatch(d.slots, d.bySub, kept, id);
  }

  lemma NoHitsNoMatches(d: IndexData, e: Event)
    requires DataOk(d) && forall id: nat :: !HitAt(d, e, id)
    ensures IndexedMatches(Contents(d), e) == {}
  {
    KeptIsIndexed(d, e, {});
  }

  lemma KeptIsIndexed(d: IndexData, e: Event, kept: set<nat>)
    requires DataOk(d) && AllLive(d.slots, kept)
    requires forall id: nat :: id in kept <==> HitAt(d, e, id) && Survives(d.slots[id], e)
    ensures MatchesOf(d.slots, kept) == IndexedMatches(Contents(d), e)
  {
    var live := Contents(d);
    forall id: nat | LiveAt(d.slots, id)
      ensures id in kept <==>
              Matches(d.slots[id].value.topic, e.topic) && IndexAccepts(d.slots[id].value.filter, GetterOf(e))
    {
      PostFilterMeaning(d.slots[id].value, e);
    }
    forall m | m in MatchesOf(d.slots, kept) ensures m in IndexedMatches(live, e) {
      var id :| id in kept && MatchOf(d.slots[id].value) == m;
      assert KeyOf(d.slots[id].value) in live;
    }
    forall m | m in IndexedMatches(live, e) ensures m in MatchesOf(d.slots, kept) {
      var k :| k in live && Matches(live[k].topic, e.topic) && IndexAccepts(live[k].filter, GetterOf(e))
          && MatchOf(live[k]) == m;
      assert d.bySub[k] in kept;
    }
  }

  lemma KeptIsDegraded(d: IndexData, e: Event, kept: set<nat>)
    requires DataOk(d) && AllLive(d.slots, kept)
    requires forall id: nat :: id in kept <==> UnfilteredAt(d, e, id)
    ensures MatchesOf(d.slots, kept) == DegradedMatches(Contents(d), e)
  {
    var live := Contents(d);
    forall m | m in MatchesOf(d.slots, kept) ensures m in DegradedMatches(live, e) {
      var id :| id in kept && MatchOf(d.slots[id].value) == m;
      assert KeyOf(d.slots[id].value) in live;
    }
    forall m | m in DegradedMatches(live, e) ensures m in MatchesOf(d.slots, kept) {
      var k :| k in live && Matches(live[k].topic, e.topic) && GoesUnfiltered(live[k].filter) && MatchOf(live[k]) == m;
      assert d.bySub[k] in kept;
    }
  }
}

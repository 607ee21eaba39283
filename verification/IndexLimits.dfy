/** Which rejections the index's pre-flight limits need, and which they do not
    (`crates/realtime-engine/src/filter_index/mutate.rs`). */
module IndexLimits {
  import opened Wrappers
  import opened TopicPatterns
  import opened Filters
  import opened FilterKeys
  import opened IndexState
  import opened IndexUpdates

  /** The limit is exceeded in a state, for pattern `p` where it is one per pattern. */
  predicate Exceeded(d: IndexData, p: string, limits: Limits, limit: CapacityError) {
    match limit
    case ConnectionLimit => false
    case GlobalLimit => |d.bySub| > limits.maxTotalSubscriptions
    case PatternLimit => |d.patterns| > limits.maxPatterns
    case PerPatternLimit => |Bitmap(d.walked.unfiltered, p)| > limits.maxSubscriptionsPerPattern
    case CompositeKeyLimit => d.walked.keyCount > limits.maxCompositeKeys
    case FieldLimit => |FieldsAt(d.walked.fields, p)| > limits.maxFieldsPerPattern
  }

  /** How many fields of the filter indexing would list. */
  function NewFieldCount(d: IndexData, sub: Subscription): nat {
    if sub.filter.None? then 0 else |NewFields(FieldsAt(d.walked.fields, AsStr(sub.topic)), sub.filter.value)|
  }

  /** A caller can tell from the subscription and the listed fields whether a rejection
      is needed. */
  predicate RejectionNeeded(d: IndexData, sub: Subscription, limits: Limits, limit: CapacityError) {
    match limit
    case PerPatternLimit => GoesUnfiltered(sub.filter)
    case FieldLimit =>
      |FieldsAt(d.walked.fields, AsStr(sub.topic))| + NewFieldCount(d, sub) > limits.maxFieldsPerPattern
    case _ => true
  }

  lemma UnfilteredGrowth(before: Parts, after: Parts, s: DispatchSlot, id: nat)
    requires SlotEntered(before, after, s, id) && id !in Bitmap(before.unfiltered, AsStr(s.topic))
    ensures |Bitmap(after.unfiltered, AsStr(s.topic))| ==
            |Bitmap(before.unfiltered, AsStr(s.topic))| + (if GoesUnfiltered(s.filter) then 1 else 0)
  {
    hide SlotEntered;
    SlotEnteredEffect(before, after, s, id);
  }

  lemma KeyGrowth(before: Parts, after: Parts, s: DispatchSlot, id: nat)
    requires SlotEntered(before, after, s, id)
    ensures after.keyCount == before.keyCount + (if s.filter.None? then 0 else CountKeys(s.filter.value))
  {
    hide SlotEntered;
    SlotEnteredEffect(before, after, s, id);
    if s.filter.Some? {
      CountKeysIsExact(AsStr(s.topic), s.filter.value);
    }
  }

  lemma FieldGrowth(d: IndexData, d': IndexData, s: DispatchSlot, id: nat)
    requires FieldsOk(d.walked.fields, d.slots) && SlotEntered(d.walked, d'.walked, s, id)
    ensures s.filter.Some? ==>
              var listed := FieldsAt(d.walked.fields, AsStr(s.topic));
              |FieldsAt(d'.walked.fields, AsStr(s.topic))| == |listed| + |NewFields(listed, s.filter.value)|
  {
    if s.filter.Some? {
      ListedCount(FieldsAt(d.walked.fields, AsStr(s.topic)), s.filter.value);
    }
  }

  /** What one more subscription adds to each quantity a limit bounds. */
  lemma InsertGrows(d: IndexData, d': IndexData, sub: Subscription, node: Option<nat>)
    requires DataOk(d) && |d.bySub| < U32_RANGE && KeyOfSub(sub) !in d.bySub && Inserted(d, d', SlotFor(sub, node))
    ensures |d'.bySub| == |d.bySub| + 1
    ensures |d'.patterns| == |d.patterns| + (if AsStr(sub.topic) in d.patterns then 0 else 1)
    ensures var p := AsStr(sub.topic);
            |Bitmap(d'.walked.unfiltered, p)| ==
            |Bitmap(d.walked.unfiltered, p)| + (if GoesUnfiltered(sub.filter) then 1 else 0)
    ensures d'.walked.keyCount == d.walked.keyCount + (if sub.filter.None? then 0 else CountKeys(sub.filter.value))
    ensures sub.filter.Some? ==>
              |FieldsAt(d'.walked.fields, AsStr(sub.topic))| ==
              |FieldsAt(d.walked.fields, AsStr(sub.topic))| + NewFieldCount(d, sub)
  {
    hide SlabOk, IndexOk, PatternsOk, TrackedOk, ExactFlagsOk, SlotEntered, FieldsOk, AllocId;
    var s, id, p := SlotFor(sub, node), AllocId(|d.slots|, d.free), AsStr(sub.topic);
    RoomForOneMore(d.slots, d.free, d.bySub);
    InsertCounts(d, s);
    assert id !in Bitmap(d.walked.unfiltered, p);
    UnfilteredGrowth(d.walked, d'.walked, s, id);
    KeyGrowth(d.walked, d'.walked, s, id);
    FieldGrowth(d, d', s, id);
  }

  /** A rejection, exactly: inserting the subscription all the same would exceed the limit
      it is rejected for if and only if the rejection is needed. The total, pattern and key
      limits reject nothing that fits; the other two can. */
  lemma RejectionExactness(d: IndexData, d': IndexData, sub: Subscription, node: Option<nat>, limits: Limits)
    requires DataOk(d) && CapsOk(d, limits) && |d.bySub| < U32_RANGE && KeyOfSub(sub) !in d.bySub
    requires Verdict(d, sub, limits).Fail? && Inserted(d, d', SlotFor(sub, node))
    ensures Exceeded(d', AsStr(sub.topic), limits, Verdict(d, sub, limits).error) <==>
            RejectionNeeded(d, sub, limits, Verdict(d, sub, limits).error)
  {
    hide DataOk, Inserted;
    InsertGrows(d, d', sub, node);
  }
}

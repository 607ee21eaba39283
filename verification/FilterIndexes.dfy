/** The bitmap filter index: mutation and evaluation
    (`crates/realtime-engine/src/filter_index/mutate.rs`, `evaluate.rs`). */
module FilterIndexes {
  import opened Wrappers
  import opened TopicPatterns
  import opened Filters
  import opened FilterKeys
  import opened IndexState
  import opened IndexUpdates
  import opened CB = CircuitBreakers

  /** The times one evaluation reads: at the breaker check, its duration, at the report. */
  type Clock = CB.Evaluation

  class FilterIndex {
    const limits: Limits
    const stats: CB.FilterIndexStats
    const breaker: CB.CircuitBreaker

    var index: Bitmaps
    var unfiltered: Bitmaps
    var patterns: map<string, TopicPattern>
    var fieldsByPattern: map<string, seq<string>>
    var subKeys: map<SubKey, seq<string>>
    var slots: Slab
    var freeSlots: seq<nat>
    var slotBySub: map<SubKey, nat>

    ghost function WalkedParts(): Parts
      reads this, stats
    {
      Parts(index, unfiltered, fieldsByPattern, stats.compositeKeyCount)
    }

    function Data(): IndexData
      reads this, stats
    {
      IndexData(Parts(index, unfiltered, fieldsByPattern, stats.compositeKeyCount), patterns, subKeys, slots,
                freeSlots, slotBySub)
    }

    ghost predicate Valid()
      reads this, stats, breaker
    {
      && DataOk(Data())
      && CapsOk(Data(), limits)
      && stats.slotsAllocated == stats.slotsFreed + |slotBySub|
      && breaker.consecutiveSlow < CB.U32_RANGE
    }

    /** No name ever indexed contains the key separator. */
    ghost predicate Clean()
      reads this
    {
      CleanNames(patterns, fieldsByPattern)
    }

    constructor (limits: Limits)
      ensures Valid() && Clean() && Contents(Data()) == map[] && this.limits == limits
      ensures fresh(stats) && fresh(breaker) && breaker.State() == CB.CLOSED
      ensures breaker.cfg == CB.Config(limits.slowThresholdUs, limits.tripCount, limits.cooldownMs)
      ensures Data() == IndexData(Parts(map[], map[], map[], 0), map[], map[], [], [], map[])
      ensures stats.subscriptionsRejected == 0 && stats.Evaluations() == CB.NO_EVALUATIONS
    {
      this.limits := limits;
      stats := new CB.FilterIndexStats();
      breaker := new CB.CircuitBreaker(CB.Config(limits.slowThresholdUs, limits.tripCount, limits.cooldownMs));
      index, unfiltered, patterns, fieldsByPattern := map[], map[], map[], map[];
      subKeys, slots, freeSlots, slotBySub := map[], [], [], map[];
    }

    // ---------- Mutation ----------

    method CheckLimits(sub: Subscription) returns (r: Outcome<CapacityError>)
      modifies stats`subscriptionsRejected
      ensures r == Verdict(Data(), sub, limits)
      ensures stats.subscriptionsRejected == old(stats.subscriptionsRejected) + (if r.Fail? then 1 else 0)
    {
      var pattern := AsStr(sub.topic);
      r := Pass;
      if |slotBySub| >= limits.maxTotalSubscriptions {
        r := Fail(GlobalLimit);
      } else if pattern !in patterns && |patterns| >= limits.maxPatterns {
        r := Fail(PatternLimit);
      } else if |Bitmap(unfiltered, pattern)| >= limits.maxSubscriptionsPerPattern {
        r := Fail(PerPatternLimit);
      } else {
        var newKeys := if sub.filter.Some? then CountKeys(sub.filter.value) else 0;
        if stats.compositeKeyCount + newKeys > limits.maxCompositeKeys {
          r := Fail(CompositeKeyLimit);
        } else if sub.filter.Some? {
          var newFields := |FieldsOf(sub.filter.value)|;
          if |FieldsAt(fieldsByPattern, pattern)| + newFields > limits.maxFieldsPerPattern {
            r := Fail(FieldLimit);
          }
        }
      }
      if r.Fail? {
        stats.subscriptionsRejected := stats.subscriptionsRejected + 1;
      }
    }

    method AllocSlot(slot: DispatchSlot) returns (id: nat)
      requires FreeListOk(slots, freeSlots)
      modifies this`slots, this`freeSlots
      ensures id == AllocId(old(|slots|), old(freeSlots))
      ensures old(freeSlots) == [] ==> id == if old(|slots|) < 0x1_0000_0000 then old(|slots|) else 0xFFFF_FFFF
      ensures old(freeSlots) != [] ==> id == old(freeSlots[|freeSlots| - 1])
      ensures old(freeSlots) != [] ==> id < old(|slots|)
      ensures slots == if old(freeSlots) != [] then old(slots)[id := Some(slot)] else old(slots) + [Some(slot)]
      ensures freeSlots == FreeAfterAlloc(old(freeSlots))
    {
      if |freeSlots| > 0 {
        id := freeSlots[|freeSlots| - 1];
        assert id in freeSlots && DeadAt(slots, id);
        freeSlots := freeSlots[..|freeSlots| - 1];
        slots := slots[id := Some(slot)];
      } else {
        id := if |slots| < IndexState.U32_RANGE then |slots| else IndexState.U32_RANGE - 1;
        slots := slots + [Some(slot)];
      }
    }

    method FreeSlot(id: nat)
      modifies this`slots, this`freeSlots
      ensures slots == if id < old(|slots|) then old(slots)[id := None] else old(slots)
      ensures freeSlots == old(freeSlots) + [id]
    {
      if id < |slots| {
        slots := slots[id := None];
      }
      freeSlots := freeSlots + [id];
    }

    method InsertKey(key: string, id: nat)
      modifies this`index, stats`compositeKeyCount
      ensures Marked(old(index), index, [key], id)
      ensures stats.compositeKeyCount == old(stats.compositeKeyCount) + 1
    {
      MarkedOnce(index, key, id);
      index := index[key := Bitmap(index, key) + {id}];
      stats.compositeKeyCount := stats.compositeKeyCount + 1;
    }

    method ListField(pattern: string, field: string)
      modifies this`fieldsByPattern
      ensures var listed := FieldsAt(old(fieldsByPattern), pattern);
              fieldsByPattern == old(fieldsByPattern)[pattern := AddFields(listed, [field])]
    {
      var fields := FieldsAt(fieldsByPattern, pattern);
      assert AddFields(fields, [field]) == AddFields(AddField(fields, field), []);
      if field !in fields {
        fields := fields + [field];
      }
      fieldsByPattern := fieldsByPattern[pattern := fields];
    }

    method IndexValues(pattern: string, id: nat, field: string, values: seq<Value>) returns (keys: seq<string>)
      modifies this`index, stats`compositeKeyCount
      ensures keys == ValueKeys(pattern, field, values)
      ensures Marked(old(index), index, ValueKeys(pattern, field, values), id)
      ensures stats.compositeKeyCount == old(stats.compositeKeyCount) + |values|
    {
      ghost var all := ValueKeys(pattern, field, values);
      keys := [];
      for i := 0 to |values|
        invariant keys == all[..i]
        invariant Marked(old(index), index, all[..i], id)
        invariant stats.compositeKeyCount == old(stats.compositeKeyCount) + i
      {
        var key := MakeKey(pattern, field, Render(values[i]));
        ghost var before := index;
        InsertKey(key, id);
        MarkedInTurn(old(index), before, index, all[..i], [key], id);
        keys := keys + [key];
        assert all[..i + 1] == all[..i] + [key];
      }
      assert all[..|values|] == all;
    }

    /** Walks the filter, entering `id` under every key; the keys are the tracked list. */
    method IndexFilter(pattern: string, id: nat, f: FilterExpr) returns (keys: seq<string>)
      modifies this`index, this`unfiltered, this`fieldsByPattern, stats`compositeKeyCount
      ensures keys == KeysOf(pattern, f)
      ensures Entered(old(WalkedParts()), WalkedParts(), pattern, KeysOf(pattern, f), HasUnindexedPart(f),
                      IndexedFields(f), id)
      decreases TreeSize(f), 1
    {
      match f
      case Eq(field, value) =>
        var key := MakeKey(pattern, field, Render(value));
        InsertKey(key, id);
        ListField(pattern, field);
        keys := [key];
      case In(field, values) =>
        keys := IndexValues(pattern, id, field, values);
        ListField(pattern, field);
      case And(l, r) =>
        keys := IndexBoth(pattern, id, l, r);
      case Or(l, r) =>
        keys := IndexBoth(pattern, id, l, r);
      case _ =>
        MarkedOnce(unfiltered, pattern, id);
        unfiltered := unfiltered[pattern := Bitmap(unfiltered, pattern) + {id}];
        keys := [];
    }

    /** The arm shared by And and Or. */
    method IndexBoth(pattern: string, id: nat, l: FilterExpr, r: FilterExpr) returns (keys: seq<string>)
      modifies this`index, this`unfiltered, this`fieldsByPattern, stats`compositeKeyCount
      ensures keys == KeysOf(pattern, l) + KeysOf(pattern, r)
      ensures Entered(old(WalkedParts()), WalkedParts(), pattern, KeysOf(pattern, l) + KeysOf(pattern, r),
                      HasUnindexedPart(l) || HasUnindexedPart(r), IndexedFields(l) + IndexedFields(r), id)
      decreases TreeSize(l) + TreeSize(r) + 1, 0
    {
      hide Entered;
      ghost var before := WalkedParts();
      var left := IndexFilter(pattern, id, l);
      ghost var between := WalkedParts();
      var right := IndexFilter(pattern, id, r);
      EnteredInTurn(before, between, WalkedParts(), pattern, l, r, id);
      keys := left + right;
    }

    /** Indexes the slot's filter, or puts an unfiltered slot among the unfiltered. */
    method EnterSlot(pattern: string, id: nat, slot: DispatchSlot) returns (keys: seq<string>)
      requires pattern == AsStr(slot.topic)
      modifies this`index, this`unfiltered, this`fieldsByPattern, stats`compositeKeyCount
      ensures keys == SlotKeys(slot)
      ensures SlotEntered(old(WalkedParts()), WalkedParts(), slot, id)
    {
      if slot.filter.Some? {
        keys := IndexFilter(pattern, id, slot.filter.value);
      } else {
        MarkedOnce(unfiltered, pattern, id);
        unfiltered := unfiltered[pattern := Bitmap(unfiltered, pattern) + {id}];
        keys := [];
      }
    }

    /** Enters a subscription, or rejects it and counts the rejection. The index stays
        consistent exactly when nothing was entered for a pair that was live. */
    method AddSubscription(sub: Subscription, node: Option<nat>) returns (r: Outcome<CapacityError>)
      requires Valid() && Parsed(sub.topic) && HasRoom(Data(), limits)
      modifies this, stats`subscriptionsRejected, stats`slotsAllocated, stats`compositeKeyCount
      ensures r == old(Verdict(Data(), sub, limits))
      ensures Valid() <==> r.Fail? || KeyOfSub(sub) !in old(Contents(Data()))
      ensures stats.subscriptionsRejected == old(stats.subscriptionsRejected) + (if r.Fail? then 1 else 0)
      ensures r.Fail? ==> unchanged(this) && unchanged(stats`slotsAllocated) && unchanged(stats`compositeKeyCount)
      ensures r.Pass? ==> Inserted(old(Data()), Data(), SlotFor(sub, node))
      ensures r.Pass? && Valid() ==> Contents(Data()) == old(Contents(Data()))[KeyOfSub(sub) := SlotFor(sub, node)]
      ensures r.Pass? ==> NamesGrown(old(Data()), Data(), sub)
      ensures old(Clean()) && CleanSlot(SlotFor(sub, node)) ==> Clean()
    {
      hide DataOk, CapsOk, Inserted, NamesGrown, IndexUpdates.Contents, CleanNames;
      ghost var before := Data();
      r := CheckLimits(sub);
      if r.Fail? {
        return;
      }
      RoomInData(before, sub, limits);
      InsertSubscription(sub, node);
      InsertKeepsAllIfFresh(before, Data(), sub, node, limits);
      InsertKeepsNames(before, Data(), SlotFor(sub, node));
      InsertGrowsNames(before, Data(), sub, node);
    }

    /** Everything of an insertion but the slab and the filter walk. */
    method Enroll(sub: Subscription, id: nat)
      modifies this`patterns, this`slotBySub, stats`slotsAllocated
      ensures patterns == WithPattern(old(patterns), sub.topic)
      ensures slotBySub == old(slotBySub)[KeyOfSub(sub) := id]
      ensures stats.slotsAllocated == old(stats.slotsAllocated) + 1
    {
      stats.slotsAllocated := stats.slotsAllocated + 1;
      if AsStr(sub.topic) !in patterns {
        patterns := patterns[AsStr(sub.topic) := sub.topic];
      }
      slotBySub := slotBySub[KeyOfSub(sub) := id];
    }

    method InsertSubscription(sub: Subscription, node: Option<nat>)
      requires FreeListOk(slots, freeSlots) && (freeSlots != [] || |slots| < IndexState.U32_RANGE)
      modifies this, stats`slotsAllocated, stats`compositeKeyCount
      ensures Inserted(old(Data()), Data(), SlotFor(sub, node))
      ensures stats.slotsAllocated == old(stats.slotsAllocated) + 1
    {
      hide SlotEntered, FreeListOk, SlotKeys, WithPattern;
      var slot := SlotFor(sub, node);
      var id := AllocSlot(slot);
      Enroll(sub, id);
      var keys := EnterSlot(AsStr(sub.topic), id, slot);
      subKeys := subKeys[KeyOfSub(sub) := keys];
    }

    /** Clears a subscription out of every part of the index in time linear in its keys. The
        index stays consistent exactly when the named pattern clears the slot. */
    method RemoveSubscription(sub: Subscription)
      requires Valid()
      modifies this, stats`slotsFreed, stats`compositeKeyCount
      ensures Valid() <==>
              (KeyOfSub(sub) in old(Contents(Data())) ==>
                 ClearsUnfiltered(old(Contents(Data()))[KeyOfSub(sub)], AsStr(sub.topic)))
      ensures Contents(Data()) == old(Contents(Data())) - {KeyOfSub(sub)}
      ensures patterns == old(patterns) && fieldsByPattern == old(fieldsByPattern)
      ensures if KeyOfSub(sub) in old(Contents(Data()))
              then RemovedUnder(old(Data()), Data(), KeyOfSub(sub), AsStr(sub.topic))
              else unchanged(this) && unchanged(stats)
      ensures old(Clean()) ==> Clean()
    {
      hide DataOk, CapsOk, RemovedUnder, ClearsUnfiltered, IndexUpdates.Contents, CleanNames;
      ghost var before := Data();
      StoredOrNot(before, KeyOfSub(sub));
      if KeyOfSub(sub) !in slotBySub {
        return;
      }
      TakeOut(sub);
      RemoveUnderExactly(before, Data(), KeyOfSub(sub), AsStr(sub.topic), limits);
    }

    method TakeOut(sub: Subscription)
      requires Valid() && KeyOfSub(sub) in slotBySub
      modifies this, stats`slotsFreed, stats`compositeKeyCount
      ensures RemovedUnder(old(Data()), Data(), KeyOfSub(sub), AsStr(sub.topic))
      ensures patterns == old(patterns) && fieldsByPattern == old(fieldsByPattern)
      ensures stats.slotsFreed == old(stats.slotsFreed) + 1
    {
      hide DataOk, CapsOk, SlotKeys, Unmarked;
      var key := KeyOfSub(sub);
      var id := slotBySub[key];
      TrackedKeysOf(Data(), key);
      slotBySub := slotBySub - {key};
      FreeSlot(id);
      stats.slotsFreed := stats.slotsFreed + 1;
      ClearUnfiltered(AsStr(sub.topic), id);
      var keys := subKeys[key];
      subKeys := subKeys - {key};
      ClearKeys(keys, id);
      stats.compositeKeyCount := stats.compositeKeyCount - |keys|;
    }

    method ClearUnfiltered(pattern: string, id: nat)
      modifies this`unfiltered
      ensures Unmarked(old(unfiltered), unfiltered, [pattern], id)
    {
      if pattern in unfiltered {
        unfiltered := unfiltered[pattern := unfiltered[pattern] - {id}];
      }
    }

    method ClearKeys(keys: seq<string>, id: nat)
      modifies this`index
      ensures Unmarked(old(index), index, keys, id)
    {
      for i := 0 to |keys|
        invariant Unmarked(old(index), index, keys[..i], id)
      {
        if keys[i] in index {
          index := index[keys[i] := index[keys[i]] - {id}];
        }
        assert keys[..i + 1] == keys[..i] + [keys[i]];
      }
      assert keys[..|keys|] == keys;
    }

    // ---------- Evaluation ----------

    /** The union taken for one matching pattern: its unfiltered slots and the bitmap
        of every looked-up field. */
    method UnionForPattern(pattern: string, e: Event, parsed: Option<Json>) returns (result: set<nat>)
      ensures forall id: nat :: id in result <==>
                InPatternUnion(index, unfiltered, pattern, FieldsAt(fieldsByPattern, pattern),
                               CachedGetter(e, parsed), id)
    {
      hide InPatternUnion, HitByField, FieldsAt;
      var g := CachedGetter(e, parsed);
      var fields := FieldsAt(fieldsByPattern, pattern);
      result := Bitmap(unfiltered, pattern);
      NoFieldYet(index, unfiltered, pattern, g);
      for i := 0 to |fields|
        invariant forall id: nat :: id in result <==> InPatternUnion(index, unfiltered, pattern, fields[..i], g, id)
      {
        ghost var before := result;
        var value := FieldCached(e, fields[i], parsed);
        if value.Some? {
          var key := MakeKey(pattern, fields[i], Render(value.value));
          result := result + Bitmap(index, key);
        }
        forall id: nat ensures id in result <==> InPatternUnion(index, unfiltered, pattern, fields[..i + 1], g, id) {
          FieldHits(index, pattern, fields[i], g, id);
          OneMoreField(index, unfiltered, pattern, fields, i, g, id);
        }
      }
      assert fields[..|fields|] == fields;
    }

    /** All patterns are visited, in whatever order the map yields them. */
    method EvaluateInner(e: Event, parsed: Option<Json>) returns (result: set<nat>)
      requires Valid() && Clean()
      requires parsed == e.payload || fieldsByPattern == map[]
      ensures forall id: nat :: id in result <==> HitAt(Data(), e, id)
    {
      hide DataOk, CapsOk, CleanNames, InPatternUnion, SlotHit;
      var pending := patterns.Keys;
      result := {};
      forall id: nat | LiveAt(slots, id) ensures AsStr(slots[id].value.topic) in pending {
        LiveTopicIsRegistered(Data(), id);
      }
      while pending != {}
        invariant pending <= patterns.Keys
        invariant forall id: nat :: id in result <==> HitAt(Data(), e, id) && AsStr(slots[id].value.topic) !in pending
      {
        var pattern :| pattern in pending;
        ghost var before, left := result, pending;
        pending := pending - {pattern};
        if Matches(patterns[pattern], e.topic) {
          var hits := UnionForPattern(pattern, e, parsed);
          result := result + hits;
          forall id: nat
            ensures id in result <==> HitAt(Data(), e, id) && AsStr(slots[id].value.topic) !in pending
          {
            PatternUnionIsHits(Data(), pattern, e, parsed, id);
            if LiveAt(slots, id) {
              LiveTopicIsRegistered(Data(), id);
            }
          }
        } else {
          forall id: nat
            ensures id in result <==> HitAt(Data(), e, id) && AsStr(slots[id].value.topic) !in pending
          {
            if LiveAt(slots, id) {
              LiveTopicIsRegistered(Data(), id);
            }
          }
        }
      }
    }

    /** The degraded union: no field is looked up. */
    method EvaluateUnfilteredOnly(e: Event) returns (result: set<nat>)
      requires Valid()
      ensures forall id: nat :: id in result <==> UnfilteredAt(Data(), e, id)
    {
      hide DataOk, CapsOk;
      var pending := patterns.Keys;
      result := {};
      forall id: nat | LiveAt(slots, id) ensures AsStr(slots[id].value.topic) in pending {
        LiveTopicIsRegistered(Data(), id);
      }
      while pending != {}
        invariant pending <= patterns.Keys
        invariant forall id: nat :: id in result <==>
                    UnfilteredAt(Data(), e, id) && AsStr(slots[id].value.topic) !in pending
      {
        var pattern :| pattern in pending;
        ghost var before := result;
        pending := pending - {pattern};
        if Matches(patterns[pattern], e.topic) {
          result := result + Bitmap(unfiltered, pattern);
        }
        forall id: nat
          ensures id in result <==> UnfilteredAt(Data(), e, id) && AsStr(slots[id].value.topic) !in pending
        {
          UnfilteredBitmapMeaning(Data(), pattern, id);
          if LiveAt(slots, id) {
            LiveTopicIsRegistered(Data(), id);
          }
        }
      }
    }

    /** Every id of the bitmap is below the slab length: what unchecked indexing relies on. */
    method DispatchBitmap(bitmap: set<nat>, e: Event) returns (delivered: seq<Match>)
      requires Valid() && forall id: nat :: id in bitmap <==> UnfilteredAt(Data(), e, id)
      ensures forall id :: id in bitmap ==> id < |slots|
      ensures multiset(delivered) == multiset(DegradedMatches(Contents(Data()), e))
    {
      hide DataOk, CapsOk, IndexUpdates.Contents;
      delivered := [];
      assert AllLive(slots, bitmap);
      ghost var kept: set<nat> := {};
      var pending := bitmap;
      while pending != {}
        invariant pending <= bitmap
        invariant kept == bitmap - pending
        invariant multiset(delivered) == multiset(MatchesOf(slots, kept))
      {
        var id :| id in pending;
        OneMoreDelivered(Data(), kept, id);
        var entry := slots[id];
        if entry.Some? {
          delivered := delivered + [MatchOf(entry.value)];
        }
        pending := pending - {id};
        kept := kept + {id};
      }
      KeptIsDegraded(Data(), e, kept);
    }

    /** Exact slots pass at once; others after re-evaluating the filter, with the
        payload parsed on first need and kept for the slots that follow. */
    method PostFilter(slot: DispatchSlot, e: Event, parsed: Option<Json>, late: Option<Json>)
      returns (passes: bool, lateParsed: Option<Json>)
      requires parsed == None || parsed == e.payload
      requires late == None || late == e.payload
      ensures passes == Survives(Some(slot), e)
      ensures lateParsed == None || lateParsed == e.payload
    {
      lateParsed := late;
      if slot.bitmapExact {
        passes := true;
      } else if slot.filter.Some? {
        if lateParsed.None? && parsed.None? {
          lateParsed := e.payload;
        }
        var source := if parsed.Some? then parsed else lateParsed;
        passes := Evaluate(slot.filter.value, CachedGetter(e, source));
      } else {
        passes := true;
      }
    }

    /** Dispatch of a full evaluation, one id of the bitmap at a time. */
    method DispatchFiltered(bitmap: set<nat>, e: Event, parsed: Option<Json>) returns (delivered: seq<Match>)
      requires Valid() && forall id: nat :: id in bitmap <==> HitAt(Data(), e, id)
      requires parsed == e.payload || parsed == None
      ensures forall id :: id in bitmap ==> id < |slots|
      ensures multiset(delivered) == multiset(IndexedMatches(Contents(Data()), e))
    {
      hide DataOk, CapsOk, IndexUpdates.Contents, SlotHit, Matches, FilterAccepts, IndexedMatches;
      delivered := [];
      assert AllLive(slots, bitmap);
      var lateParsed: Option<Json> := None;
      ghost var kept: set<nat> := {};
      var pending := bitmap;
      while pending != {}
        invariant pending <= bitmap
        invariant kept == set i | i in bitmap && i !in pending && Survives(slots[i], e)
        invariant multiset(delivered) == multiset(MatchesOf(slots, kept))
        invariant lateParsed == None || lateParsed == e.payload
      {
        var id :| id in pending;
        var entry := slots[id];
        if entry.Some? {
          var passes;
          passes, lateParsed := PostFilter(entry.value, e, parsed, lateParsed);
          if passes {
            OneMoreDelivered(Data(), kept, id);
            delivered := delivered + [MatchOf(entry.value)];
            kept := kept + {id};
          }
        }
        pending := pending - {id};
      }
      KeptIsIndexed(Data(), e, kept);
    }

    /** The full matches, or the degraded ones. */
    ghost function Found(e: Event, degraded: bool): set<Match>
      reads this, stats
    {
      if degraded then DegradedMatches(Contents(Data()), e) else IndexedMatches(Contents(Data()), e)
    }

    /** Both branches on the breaker, up to the bookkeeping. */
    method FindMatches(e: Event, degraded: bool) returns (found: seq<Match>)
      requires Valid() && Clean()
      ensures multiset(found) == multiset(Found(e, degraded))
    {
      hide DataOk, CapsOk, IndexUpdates.Contents, HitAt, UnfilteredAt, CleanNames, IndexedMatches, DegradedMatches;
      if degraded {
        var bitmap := EvaluateUnfilteredOnly(e);
        found := DispatchBitmap(bitmap, e);
        return;
      }
      var parsed := if fieldsByPattern != map[] then e.payload else None;
      var bitmap := EvaluateInner(e, parsed);
      if bitmap == {} {
        NoHitsNoMatches(Data(), e);
        found := [];
      } else {
        found := DispatchFiltered(bitmap, e, parsed);
      }
    }

    /** The bookkeeping after an evaluation. */
    method Conclude(degraded: bool, clock: Clock, found: nat)
      requires breaker.consecutiveSlow < CB.U32_RANGE
      modifies breaker, stats`circuitBypassed, stats`evaluationsTotal, stats`matchesTotal, stats`lastEvalUs,
               stats`evaluationsEmpty, stats`peakEvalUs, stats`slowEvaluations, stats`circuitTrips
      ensures breaker.State() == CB.AfterReport(breaker.cfg, old(breaker.State()), clock.us, clock.reportedAtMs)
      ensures stats.Evaluations() == old(CB.EvaluationCounts(
                stats.evaluationsTotal + 1,
                stats.evaluationsEmpty + (if found == 0 then 1 else 0),
                stats.matchesTotal + found,
                clock.us,
                if clock.us > stats.peakEvalUs then clock.us else stats.peakEvalUs,
                stats.slowEvaluations + (if clock.us > breaker.cfg.thresholdUs then 1 else 0),
                stats.circuitTrips + (if CB.Trips(breaker.cfg, breaker.State(), clock.us) then 1 else 0),
                stats.circuitBypassed + (if degraded then 1 else 0)))
    {
      if degraded {
        stats.circuitBypassed := stats.circuitBypassed + 1;
      }
      stats.RecordEvaluation(clock.us, found);
      breaker.Report(clock.us, clock.reportedAtMs, stats);
    }

    /** Calls back once per matching subscription; the calls are recorded in order.
        The breaker decides between the full and the degraded dispatch. */
    method ForEachMatch(e: Event, clock: Clock) returns (delivered: seq<Match>, count: nat)
      requires Valid() && Clean()
      modifies breaker, stats`circuitBypassed, stats`evaluationsTotal, stats`matchesTotal, stats`lastEvalUs,
               stats`evaluationsEmpty, stats`peakEvalUs, stats`slowEvaluations, stats`circuitTrips
      ensures Valid()
      ensures breaker.State() == CB.Step(breaker.cfg, old(breaker.State()), clock)
      ensures multiset(delivered) ==
              multiset(Found(e, CB.Degrades(breaker.cfg, old(breaker.State()), clock.checkedAtMs)))
      ensures count == |delivered|
      ensures stats.Evaluations() ==
              CB.AfterEvaluation(breaker.cfg, old(breaker.State()), old(stats.Evaluations()), clock, count)
    {
      hide DataOk, CapsOk, IndexUpdates.Contents, CleanNames, IndexedMatches, DegradedMatches;
      var degraded := breaker.IsOpen(clock.checkedAtMs);
      delivered := FindMatches(e, degraded);
      count := |delivered|;
      Conclude(degraded, clock, count);
    }

    /** The same matches pushed into a vector. */
    method CollectMatches(e: Event, clock: Clock) returns (matches: seq<Match>)
      requires Valid() && Clean()
      modifies breaker, stats`circuitBypassed, stats`evaluationsTotal, stats`matchesTotal, stats`lastEvalUs,
               stats`evaluationsEmpty, stats`peakEvalUs, stats`slowEvaluations, stats`circuitTrips
      ensures Valid()
      ensures breaker.State() == CB.Step(breaker.cfg, old(breaker.State()), clock)
      ensures multiset(matches) ==
              multiset(Found(e, CB.Degrades(breaker.cfg, old(breaker.State()), clock.checkedAtMs)))
      ensures stats.Evaluations() ==
              CB.AfterEvaluation(breaker.cfg, old(breaker.State()), old(stats.Evaluations()), clock, |matches|)
    {
      hide DataOk, CapsOk, IndexUpdates.Contents, CleanNames, IndexedMatches, DegradedMatches;
      var degraded := breaker.IsOpen(clock.checkedAtMs);
      matches := FindMatches(e, degraded);
      Conclude(degraded, clock, |matches|);
    }
  }
}

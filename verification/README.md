# Realtime gateway: a verified model

This project models the core of a realtime event gateway and proves what it promises:

* the bitmap filter index, a slot-allocated inverted index that must answer like a linear scan
  (`FilterKeys`, `IndexState`, `IndexUpdates`, `FilterIndexes`), and the subscription registry
  around it (`RegistryState`, `Replays`, `Registries`), with what its limits reject (`IndexLimits`) and
  which caps hold over every run (`AdmissionCaps`);
* the circuit breaker that degrades lookups (`CircuitBreakers`);
* routing and delivery as interleaved steps of router, dispatcher, workers and connections
  (`Routers`, `Connections`, `Pipeline`, `PipelineEndings`), with the compare-and-swap high-water
  marks (`HighWaterMarks`);
* presence tracking with its re-checked prune (`Presence`);
* the WebSocket writer's drain-then-close protocol (`Writers`, `WriterRuns`, `WriterAnswers`);
* topic patterns and who may subscribe to them (`TopicPatterns`, `AuthClaims`), and wire filters
  (`Filters`, `WireFilters`, `UnreadableFilters`);
* the IRC bridge's lines, channels and nicknames (`Irc`, `Nicknames`).

Objects the program updates in place are classes whose methods are specified by relations on values;
the relations' invariants are lemmas. What runs concurrently is a state machine whose theorems hold
for every run. `dafny verify dfyconfig.toml` checks everything.

What a reader should know about the behaviour:

* An index lookup can deliver more than the linear scan, because values of different kinds render
  alike; `IndexRefinesLinearScan` says exactly when.
* The comment on `dispatch_bitmap` calls degraded slots inherently exact. They are not: a slot with
  an Ne or Not part is among them. `DegradedWithinFull` says exactly when a degraded dispatch is harmless.
* The cap documented as the maximum subscriptions per single topic pattern counts the slots of the
  unfiltered bitmap only, so a pattern can hold more: `PatternCapExactness` says under which limits it
  cannot. It can also turn away a filter that would not enter that bitmap, and the field limit counts
  listed fields again. `RejectionExactness` says exactly which rejections are needed.
* Subscribing a live (connection, subscription) pair again is not refused. The maps and the index then
  disagree (`Run`), and unsubscribing frees the new slot only, so the old one keeps matching
  (`OldSlotOutlivesItsPair`).
* A per-connection cap of zero still admits one subscription per connection (`ConnectionCapExactness`).
* A pattern whose first segment is a wildcard is accepted on a `*` or `**` grant although it matches
  topics in protected or ungranted namespaces; `AcceptedPatternContained` says exactly when.
* One malformed clause makes a wire filter unreadable, and an unreadable filter is stored as none, so the
  subscription receives everything on its pattern, what its known clauses reject included: exactly when
  one of them can reject anything there (`UnreadableFilterAcceptsAll`). An `ne` on a value its field never
  holds, such as a number in `event_type`, cannot.
* The overflow policy called drop-oldest drops the event being sent; a full queue is never altered.
* Sequence order within a stream is guaranteed with one fan-out worker only; with more, the dispatcher's
  round robin spreads a topic over workers and a later event can be queued first (`StreamOrderNeedsOneWorker`).
* A closing frame can overtake control frames in two ways. The biased select protects them from the
  writer's own Close except for those queued between two looks of one select turn. When the writer has
  stopped on a failed write or a slow client, the connection task writes the Close, and it overtakes the
  frame whose write failed and every frame still queued, however long before they were produced.
  `CloseOvertakesExactly` says exactly when either overtakes anything.
* A client that closes can go unanswered: once the connection task has asked the writer to answer, a
  writer that stops on a failed or slow frame hands the sink back to nobody (`ClientCloseIsAnswered`).
* Once the goodbye is ready the writer makes at most one turn per queued control frame, one for a data
  frame it was already looking at, and one to close. From the reader's end any number of data frames can
  be taken before the goodbye is ready (`DataCanFollowReaderEnd`), so the backlog bounds the turns only if
  the writer has stopped or no data can come (`TurnsBoundExactness`). The select's `else` arm is never
  taken, because the goodbye arm matches whatever the channel yields.
* A room that starts with `#` comes back under another topic.

## Model

| member | source | states |
|---|---|---|
| `Registries.LookupsAfterAnyRun` | crates/realtime-engine/src/filter_index/evaluate.rs:249-321 | For every sequence of subscribe, unsubscribe and remove-connection calls on a fresh registry that registers no live pair again: each call is answered as the replay of the operations says, the live subscriptions are the replay's, the linear scan delivers a connection, subscription and node exactly when that subscription is live, its pattern matches and its filter accepts, the index lookup delivers the index matches, each match comes once, and the two agree as multisets if and only if no live subscription is misread by spelling |
| `Registries.Run` | crates/realtime-engine/src/registry/mod.rs:96-137 | Every sequence of operations, up to the first that registers a live pair again: each is answered as the replay says and the maps and the index follow it; they end in agreement if and only if there is no such operation |
| `Replays.GuardsAreAdmission` | crates/realtime-engine/src/registry/guards.rs:29-58 | The registry's guards and the index's verdict together admit exactly what the replay admits, computed from the live subscriptions, the patterns and fields ever admitted and the connections with a list |
| `AdmissionCaps.AdmissionExactness` | crates/realtime-engine/src/filter_index/mutate.rs:99-183 | A fresh subscription is admitted if and only if connection, total, patterns and keys are within their caps with it, its pattern has room among the unfiltered, and room for every field its filter mentions |
| `AdmissionCaps.ConnectionCapExactness` | crates/realtime-engine/src/registry/guards.rs:35-47 | In every run every connection stays within its cap, if and only if the cap is at least one or another limit admits nothing |
| `AdmissionCaps.ZeroCapAdmitsOne` | crates/realtime-engine/src/registry/guards.rs:35-47 | Under a cap of zero a run in which a connection's first subscription is admitted |
| `AdmissionCaps.PatternCapExactness` | crates/realtime-engine/src/filter_index/limits.rs:35-38 | In every run every pattern stays within the maximum subscriptions per single topic pattern, filtered and unfiltered together, if and only if the total cap is no larger, or another limit keeps filtered subscriptions or all of them out |
| `AdmissionCaps.UnfilteredWithinCap` | crates/realtime-engine/src/filter_index/mutate.rs:128-144 | What that limit does bound in every run: the unfiltered subscriptions of a pattern |
| `IndexState.IndexRefinesLinearScan` | crates/realtime-engine/src/filter_index/evaluate.rs:143-218 | For every set of live subscriptions and every event: the index delivers all the linear scan delivers, and exactly that if and only if no live exact filter rejects the event while an operand is spelled like the event's value |
| `IndexState.SameKindsAgree` | crates/realtime-engine/src/filter_index/mod.rs:173-181 | With operands of the kinds the event carries, index and linear scan deliver the same |
| `IndexState.SpellingCounterexample` | crates/realtime-engine/src/filter_index/mod.rs:173-181 | A string operand `"7"` and an integer field 7: the index delivers the subscription, the linear scan delivers nothing |
| `FilterIndexes.FilterIndex.ForEachMatch` | crates/realtime-engine/src/filter_index/evaluate.rs:143-218 | The callbacks are, as a multiset, the index matches of the contents (the degraded ones while the breaker says so); the breaker makes one step, and all evaluation counters (total, empty, matches, last, peak, slow, trips, bypassed) account for one evaluation |
| `FilterIndexes.FilterIndex.FindMatches` | crates/realtime-engine/src/filter_index/evaluate.rs:149-211 | Both branches on the breaker, up to the bookkeeping |
| `FilterIndexes.FilterIndex.Conclude` | crates/realtime-engine/src/filter_index/evaluate.rs:213-217 | The bookkeeping: every counter and the breaker's report |
| `FilterIndexes.FilterIndex.CollectMatches` | crates/realtime-engine/src/filter_index/evaluate.rs:249-321 | The vector holds the same matches, with the same bookkeeping |
| `FilterIndexes.FilterIndex.EvaluateInner` | crates/realtime-engine/src/filter_index/evaluate.rs:93-133 | A slot is in the bitmap if and only if it is live, its pattern matches the topic and its filter is hit |
| `FilterIndexes.FilterIndex.UnionForPattern` | crates/realtime-engine/src/filter_index/evaluate.rs:101-131 | The union for one pattern is its unfiltered slots and those under a key looked up for one of its fields |
| `FilterIndexes.FilterIndex.PostFilter` | crates/realtime-engine/src/filter_index/evaluate.rs:186-211 | A slot passes exactly when it is exact or its filter accepts the event, whatever was parsed before; the late parse is the event's payload or nothing |
| `FilterIndexes.FilterIndex.DispatchFiltered` | crates/realtime-engine/src/filter_index/evaluate.rs:177-217 | Taking the bitmap's ids one at a time, each below the slab length, dispatches exactly the index matches |
| `FilterIndexes.FilterIndex.EvaluateUnfilteredOnly` | crates/realtime-engine/src/filter_index/evaluate.rs:78-89 | The degraded bitmap holds exactly the live unfiltered slots of matching patterns |
| `FilterIndexes.FilterIndex.DispatchBitmap` | crates/realtime-engine/src/filter_index/evaluate.rs:224-242 | Taking the bitmap's ids one at a time, each below the slab length, dispatches exactly the degraded matches |
| `IndexUpdates.LazyParseIsSafe` | crates/realtime-engine/src/filter_index/evaluate.rs:162-178 | When no field is indexed, leaving the payload unparsed changes no slot's hit |
| `IndexUpdates.PostFilterMeaning` | crates/realtime-engine/src/filter_index/evaluate.rs:186-211 | The post-filter keeps a hit slot exactly when the index accepts its filter |
| `IndexUpdates.PatternUnionIsHits` | crates/realtime-engine/src/filter_index/evaluate.rs:101-131 | In every consistent state the union for a matching pattern holds exactly that pattern's hit slots |
| `IndexUpdates.KeptIsIndexed` | crates/realtime-engine/src/filter_index/evaluate.rs:186-211 | The slots kept by the post-filter stand for the index matches of the contents |
| `FilterKeys.NoFalseNegatives` | crates/realtime-engine/src/filter_index/evaluate.rs:107-130 | By induction through And, Or, Ne and Not: a filter that accepts an event is always hit |
| `FilterKeys.ExactHitIsRenderedEvaluation` | crates/realtime-engine/src/filter_index/mod.rs:185-191 | For an exact filter, a hit is the filter evaluated on rendered values |
| `FilterKeys.ExactHitDecomposes` | crates/realtime-engine/src/filter_index/mod.rs:185-191 | For an exact filter, a hit is acceptance or a misread operand |
| `FilterKeys.SameKindsNeverMisread` | crates/realtime-engine/src/filter_index/mod.rs:173-181 | Operands of the event's kinds are never misread |
| `FilterKeys.HitThroughKeys` | crates/realtime-engine/src/filter_index/mutate.rs:298-356 | Looking up composite keys finds a filter's keys exactly when the filter is hit |
| `FilterKeys.KeysStayWithTheirPattern` | crates/realtime-engine/src/filter_index/mutate.rs:298-356 | Keys of one pattern are never looked up for another |
| `FilterKeys.MakeKeyInjective` | crates/realtime-engine/src/filter_index/mod.rs:160-168 | Composite keys of names without the separator determine pattern, field and value |
| `FilterKeys.NulMakesKeysCollide` | crates/realtime-engine/src/filter_index/mod.rs:160-168 | With the separator inside a field name two different keys coincide |
| `FilterKeys.DecimalExactness` | crates/realtime-engine/src/filter_index/mod.rs:173-181 | A number prints as the one numeral without leading zero that reads back as it |
| `FilterKeys.RenderSpells` | crates/realtime-engine/src/filter_index/mod.rs:173-181 | An integer, a truth value or null renders as exactly the string that spells it: a signed numeral, true or false, null |
| `FilterKeys.RenderingConfusion` | crates/realtime-engine/src/filter_index/mod.rs:173-181 | Two values render alike exactly when they are equal or one is a string spelling the other |
| `FilterKeys.ExactFilters` | crates/realtime-engine/src/filter_index/mod.rs:185-191 | Exact are exactly the filters made of Eq, In and Or alone |
| `FilterKeys.UnindexedParts` | crates/realtime-engine/src/filter_index/mutate.rs:298-356 | A filter has a part no bitmap covers if and only if an Ne or a Not occurs in it outside every Not |
| `FilterKeys.IndexedFieldsExactness` | crates/realtime-engine/src/filter_index/mutate.rs:298-356 | Indexing lists exactly the fields of every Eq and In outside every Not |
| `FilterKeys.MentionedFieldsExactness` | crates/realtime-engine/src/filter_index/mutate.rs:202-221 | The pre-flight count is over exactly the fields of every Eq, Ne and In, inside a Not included |
| `FilterKeys.CountKeysIsExact` | crates/realtime-engine/src/filter_index/mutate.rs:190-199 | The pre-flight key count is the number of keys insertion tracks, duplicate In values included |
| `FilterKeys.FieldEstimate` | crates/realtime-engine/src/filter_index/mutate.rs:202-221 | Insertion lists at most the counted fields, and exactly as many if and only if every field the filter mentions is indexed and not listed yet |
| `FilterKeys.ListedCount` | crates/realtime-engine/src/filter_index/mutate.rs:313-321 | Insertion lists exactly the new indexed fields besides the old |
| `WireFilters.FromJson` | crates/realtime-core/src/filter/expr.rs:39-51 | A wire filter parses exactly when it is an object of objects with known operators, at least one in all, and then accepts exactly the events of which every operator of every field holds, stated on the JSON the filter and the payload are written in |
| `WireFilters.OperandExactness` | crates/realtime-core/src/filter/expr.rs:84-99 | A field equals an operand if and only if the event holds that scalar in it; an array or an object as operand asks for null |
| `WireFilters.ClauseExactness` | crates/realtime-core/src/filter/expr.rs:54-65 | eq holds of an event if and only if its field holds the operand, ne if and only if it does not, in if and only if it holds one of the listed |
| `UnreadableFilters.UnreadableFilterAcceptsAll` | crates/realtime-gateway/src/ws_handler/handlers.rs:96-102 | A subscription can be sent an event that a known clause of its own wire filter rejects if and only if the filter is unreadable and lists a known clause that is rejectable on its pattern |
| `UnreadableFilters.RejectableExactness` | crates/realtime-core/src/filter/getter.rs:95-118 | A known clause is rejectable, as a caller can tell from the clause and the pattern, if and only if some event on a matching topic fails it |
| `UnreadableFilters.KindTextExactness` | crates/realtime-core/src/types/payload.rs:40-51 | The strings a source kind is looked up as: the four names, or a custom name escaped and wrapped |
| `UnreadableFilters.KindTextTells` | crates/realtime-core/src/types/payload.rs:40-51 | A printed kind tells which it is: each fixed kind prints its own name, a custom one a text that reads back as its name |
| `UnreadableFilters.MisspeltOperatorExample` | crates/realtime-gateway/src/ws_handler/handlers.rs:96-102 | A misspelt operator beside a good clause: a subscription is sent an event the good clause rejects |
| `WireFilters.CombineExprs` | crates/realtime-core/src/filter/expr.rs:68-80 | The And-fold means the conjunction of its expressions; there is none for an empty list |
| `WireFilters.ParseOperator` | crates/realtime-core/src/filter/expr.rs:54-65 | An operator parses exactly when it is eq, ne, or in with an array, and means what the clause asks |
| `WireFilters.MalformedClauseRejects` | crates/realtime-core/src/filter/expr.rs:39-51 | One malformed clause makes the whole filter unreadable |
| `Filters.ExtractPayloadField` | crates/realtime-core/src/filter/getter.rs:122-132 | The segment-by-segment walk finds a value if and only if, segment by segment, the first member under each name leads to that scalar |
| `Filters.LookupExactness` | crates/realtime-core/src/filter/getter.rs:129 | In any object the first member under a key is found, wherever it stands, and nothing is found exactly when no member has the key |
| `Filters.FieldExactness` | crates/realtime-core/src/filter/getter.rs:95-118 | A field lookup finds a value if and only if the event holds that scalar there: the envelope's names hold its strings, any other is a path into the payload, with or without its prefix |
| `Filters.EvaluationLaws` | crates/realtime-core/src/filter/expr.rs:23-32 | Ne is the negation of Eq, In a choice of Eqs, and Not, And and Or obey De Morgan |
| `FilterIndexes.FilterIndex.constructor` | crates/realtime-engine/src/filter_index/mod.rs:130-145 | A fresh index is consistent and empty |
| `FilterIndexes.FilterIndex.AddSubscription` | crates/realtime-engine/src/filter_index/mutate.rs:46-96 | A subscription is entered in one new slot, or rejected for the first broken limit with only the rejection counter moved; all invariants and caps are kept, and it is added to the contents and nothing else, if and only if nothing was entered for a live pair |
| `FilterIndexes.FilterIndex.CheckLimits` | crates/realtime-engine/src/filter_index/mutate.rs:99-183 | The verdict of the five limits in order, with one rejection counted on failure |
| `FilterIndexes.FilterIndex.InsertSubscription` | crates/realtime-engine/src/filter_index/mutate.rs:56-95 | One slot allocated, entered under the filter's keys and recorded in both maps |
| `FilterIndexes.FilterIndex.IndexFilter` | crates/realtime-engine/src/filter_index/mutate.rs:298-356 | Walking a filter enters the slot under exactly its keys, lists its indexed fields, puts it among the unfiltered when a part is Ne or Not, and counts the keys |
| `FilterIndexes.FilterIndex.AllocSlot` | crates/realtime-engine/src/filter_index/mutate.rs:255-278 | The last free id is reused, else the slab grows by one |
| `FilterIndexes.FilterIndex.FreeSlot` | crates/realtime-engine/src/filter_index/mutate.rs:281-295 | The slot is cleared and its id goes to the end of the free list |
| `FilterIndexes.FilterIndex.RemoveSubscription` | crates/realtime-engine/src/filter_index/mutate.rs:224-252 | Exactly that subscription leaves the contents, with every pattern and listed field still there, and an unknown one changes nothing; all invariants and caps are kept if and only if the named pattern is the stored one or the slot was in no unfiltered bitmap |
| `FilterIndexes.FilterIndex.TakeOut` | crates/realtime-engine/src/filter_index/mutate.rs:228-251 | The slot is freed and leaves the bitmaps of all its tracked keys and of its pattern |
| `IndexState.AllocIdIsFresh` | crates/realtime-engine/src/filter_index/mutate.rs:255-278 | The id handed out belongs to no live slot exactly when one is free or the slab is shorter than 2^32 |
| `IndexUpdates.AllocKeepsSlab` | crates/realtime-engine/src/filter_index/mutate.rs:255-278 | Allocation keeps live and free ids a partition of the slab without repeats, and every owner with its slot |
| `IndexUpdates.RoomForOneMore` | crates/realtime-engine/src/filter_index/mutate.rs:255-278 | With fewer than 2^32 live subscriptions the 32-bit fallback id is never taken |
| `IndexUpdates.InsertKeepsData` | crates/realtime-engine/src/filter_index/mutate.rs:46-96 | Insertion keeps every invariant: a slot is in a bitmap if and only if it is live and its own filter contributes the key |
| `IndexUpdates.InsertKeepsCaps` | crates/realtime-engine/src/filter_index/mutate.rs:99-183 | What passes the pre-flight checks breaks no cap |
| `IndexLimits.RejectionExactness` | crates/realtime-engine/src/filter_index/mutate.rs:99-183 | Inserting a rejected subscription all the same would exceed the limit it was rejected for if and only if: always for the total, pattern and key limits; for the per-pattern limit, when the filter has a part that cannot be indexed or is absent; for the field limit, when the listed fields and the new indexed ones exceed it |
| `AdmissionCaps.FieldLimitCountsListedFields` | crates/realtime-engine/src/filter_index/mutate.rs:201-208 | A run in which a second subscription on the only listed field is rejected for the field limit although nothing new would be listed |
| `AdmissionCaps.PatternLimitCountsAnotherBitmap` | crates/realtime-engine/src/filter_index/mutate.rs:128-144 | A run in which a filter that would not enter the unfiltered bitmap is rejected for that bitmap's size |
| `IndexUpdates.RemoveKeepsData` | crates/realtime-engine/src/filter_index/mutate.rs:224-252 | Removal keeps every invariant, so a reused slot never answers to its previous owner's keys |
| `IndexUpdates.RemoveKeepsCaps` | crates/realtime-engine/src/filter_index/mutate.rs:224-252 | Removal keeps every cap and the slab's length |
| `IndexUpdates.RemovalNeedsItsPattern` | crates/realtime-engine/src/filter_index/mutate.rs:232-236 | Removal keeps the parts in agreement if and only if the named pattern is the stored one or the slot was in no unfiltered bitmap |
| `IndexUpdates.InsertNeedsFreshPair` | crates/realtime-engine/src/filter_index/mutate.rs:75-77 | Insertion keeps the parts in agreement if and only if the pair is not live yet: else the old slot stays live without an owner |
| `IndexUpdates.OldSlotOutlivesItsPair` | crates/realtime-engine/src/filter_index/mutate.rs:75-77 | A live pair entered again and then removed: its old slot is still live and in all its bitmaps, and no pair names it, so nothing can remove it |
| `IndexUpdates.TrackedKeysOf` | crates/realtime-engine/src/filter_index/mutate.rs:239-250 | The tracked keys are the slot's own keys, and the key counter covers them, so it never underflows |
| `IndexState.TotalKeysWithout` | crates/realtime-engine/src/filter_index/mutate.rs:239-250 | The sum of tracked lengths falls by the removed list's length |
| `IndexState.RemovalIsLocal` | crates/realtime-engine/src/filter_index/mutate.rs:224-252 | Removing subscriptions leaves the matches of all others as they were, for index and linear scan |
| `CircuitBreakers.CircuitBreaker.IsOpen` | crates/realtime-engine/src/filter_index/stats.rs:218-236 | Degrade while open, until the clock has passed the opening by the cooldown, and then but for one probe; nothing else changes |
| `CircuitBreakers.CircuitBreaker.Report` | crates/realtime-engine/src/filter_index/stats.rs:239-274 | Whether the circuit is open, its slow count, its opening time and the two counters, from the duration and the clock |
| `CircuitBreakers.FilterIndexStats.RecordEvaluation` | crates/realtime-engine/src/filter_index/stats.rs:105-125 | Totals, empty evaluations, last and peak duration |
| `CircuitBreakers.EveryRunIsSound` | crates/realtime-engine/src/filter_index/stats.rs:218-274 | Over every run: the counter is the trailing run of slow evaluations modulo 2^32, no probe is left pending, and closed means fewer than the trip level |
| `CircuitBreakers.Transitions` | crates/realtime-engine/src/filter_index/stats.rs:218-274 | Over every run, on clock values: it opens exactly when the slow evaluations in a row reach the trip count, an open circuit degrades a check if and only if less than the cooldown has passed since the opening, closes if and only if it has passed and the evaluation is fast, and counts the cooldown again from a slow probe |
| `CircuitBreakers.TripCounterCountsOpenings` | crates/realtime-engine/src/filter_index/stats.rs:239-274 | The trip counter counts exactly the closed-to-open steps of a run |
| `IndexState.DegradedWithinFull` | crates/realtime-engine/src/filter_index/evaluate.rs:224-242 | A degraded dispatch stays within the linear matches if and only if every live unindexable filter on a matching pattern accepts the event |
| `IndexState.DegradedIsSafe` | crates/realtime-engine/src/filter_index/evaluate.rs:224-242 | While no live filter has an unindexable part a degraded dispatch stays within the linear matches for every event |
| `IndexState.DegradedCounterexample` | crates/realtime-engine/src/filter_index/evaluate.rs:220-224 | A subscription with an Ne filter receives, degraded, an event its filter rejects |
| `Registries.SubscriptionRegistry.Subscribe` | crates/realtime-engine/src/registry/mod.rs:96-137 | A subscription is registered in all four maps and the index, or nothing changes but the rejection counter; the verdict is the guards', then the index's; maps and index stay in agreement if and only if nothing was registered for a live pair |
| `Registries.SubscriptionRegistry.Unsubscribe` | crates/realtime-engine/src/registry/unsubscribe.rs:25-41 | That subscription leaves every map and the index; the result says whether it existed |
| `Registries.SubscriptionRegistry.RemoveConnection` | crates/realtime-engine/src/registry/unsubscribe.rs:47-61 | Exactly the connection's subscriptions leave every map and the index |
| `Registries.SubscriptionRegistry.LookupMatches` | crates/realtime-engine/src/registry/lookup.rs:25-61 | The linear scan returns every live subscription whose pattern matches and whose filter accepts, each once |
| `RegistryState.SubscribeKeepsAgreement` | crates/realtime-engine/src/registry/mod.rs:112-131 | Subscribing keeps the maps holding the same subscriptions, each once |
| `RegistryState.SubscribeKeepsCap` | crates/realtime-engine/src/registry/guards.rs:35-47 | The guard keeps every list within the per-connection cap, or within one entry for a cap of zero |
| `RegistryState.UnsubscribeKeepsAgreement` | crates/realtime-engine/src/registry/unsubscribe.rs:25-41 | Unsubscribing keeps the maps in agreement |
| `RegistryState.DropOneKeepsDismantling` | crates/realtime-engine/src/registry/unsubscribe.rs:47-61 | Each pass of the removal loop keeps the agreement of everything but the entries still to go |
| `RegistryState.DismantledAgrees` | crates/realtime-engine/src/registry/unsubscribe.rs:47-61 | With no entry left to go the maps agree again |
| `Routers.SequenceGenerator.Next` | crates/realtime-engine/src/sequence.rs:58-65 | The next number of that topic; other topics keep theirs |
| `Routers.SequenceGenerator.Current` | crates/realtime-engine/src/sequence.rs:71-76 | The last number given out, or 0 |
| `Routers.EventRouter.RouteEvent` | crates/realtime-engine/src/router.rs:193-237 | One sequence number; the index's matches, each once, as one message in which delivery i names the connection and subscription of match i, the event's topic and its next number, all or nothing; and counters that stay balanced |
| `Routers.EventRouter.Dispatch` | crates/realtime-engine/src/router.rs:201-236 | The batch is sent exactly when it is not empty and the channel is connected with room; each counter moves as that says |
| `Routers.EventRouter.UpdateLargestBatch` | crates/realtime-engine/src/router.rs:119-132 | The high-water mark becomes the larger of itself and the batch size |
| `Routers.DeliveredTargetsAreDistinct` | crates/realtime-engine/src/router.rs:197-200 | No event addresses a subscription twice |
| `Connections.ConnectionManager.NextConnectionId` | crates/realtime-gateway/src/connection/mod.rs:72-74 | An id no connection has had |
| `Connections.ConnectionManager.Register` | crates/realtime-gateway/src/connection/mod.rs:76-91 | A new empty queue of the configured capacity |
| `Connections.ConnectionManager.Remove` | crates/realtime-gateway/src/connection/query.rs:19-23 | That connection is gone and no other |
| `Connections.ConnectionManager.TrySend` | crates/realtime-gateway/src/connection/send.rs:22-56 | Sent exactly when registered, open and not full; otherwise the overflow policy's result and no change |
| `Connections.ConnectionManager.HandleDispatch` | crates/realtime-gateway/src/fanout.rs:126-148 | The queue grows when sent, the connection goes on disconnect, and exactly the result's metric is counted |
| `Connections.OfferIsIsolated` | crates/realtime-gateway/src/connection/send.rs:22-56 | A delivery to one connection changes no other, and a full queue is never altered under any policy |
| `Connections.OfferExactness` | crates/realtime-gateway/src/connection/send.rs:22-56 | Under any policy a delivery is sent exactly when its connection is there, open and not full, and then joins the end of its queue; a full queue answers with its policy |
| `Pipeline.EveryPairIsInOnePlace` | crates/realtime-gateway/src/fanout.rs:75-148 | In every interleaving of router, dispatcher, workers and connections: every routed pair is in exactly one place, once (refused batch, dispatch channel, dispatcher's hand, worker queue, batch in progress, outcome, or lost with a task), and nothing else is anywhere |
| `Pipeline.StepConserves` | crates/realtime-gateway/src/fanout.rs:75-148 | Each step moves pairs between places without losing or copying any |
| `Pipeline.SequencesHaveNoGap` | crates/realtime-engine/src/sequence.rs:58-65 | In every interleaving the numbers of a topic are 1, 2, 3, … without a gap, and routed events equal empty routes plus batches sent plus refusals |
| `Pipeline.RoutingAddsTheTargets` | crates/realtime-engine/src/router.rs:193-237 | In every interleaving routing an event adds one pair per target, in order, with the event's topic and a number one above the events of that topic so far; they go out as one message or are all refused |
| `Pipeline.StepKeepsRouted` | crates/realtime-engine/src/router.rs:193-200 | Later pairs of a topic carry later numbers; pairs of one event differ in target |
| `Pipeline.MetricsCountTheirClass` | crates/realtime-gateway/src/fanout.rs:126-148 | In every interleaving the four metrics count exactly their class of outcomes once no worker has one left to count |
| `Pipeline.DrainedCountsAddUp` | crates/realtime-gateway/src/fanout.rs:126-148 | Once drained, dispatched matches equal the sum of the four metrics, refused pairs and pairs lost with a task |
| `Pipeline.WorkersKeepRoutingOrder` | crates/realtime-gateway/src/fanout.rs:96-124 | In every interleaving what one worker enqueues to a connection is in routing order |
| `Pipeline.StepKeepsOrder` | crates/realtime-gateway/src/fanout.rs:75-124 | Past, present and future of each worker form one ascending line |
| `Pipeline.OneWorkerKeepsStreamOrder` | crates/realtime-gateway/src/fanout.rs:75-124 | With one worker, in every interleaving, sequence numbers in each (connection, subscription, topic) stream of what was sent strictly increase, whether or not the connection is still registered |
| `Pipeline.StreamOrderNeedsOneWorker` | crates/realtime-gateway/src/fanout.rs:75-124 | With n workers every reachable state keeps every stream in sequence order if and only if n is 1 |
| `Pipeline.ManyWorkersCanReorder` | crates/realtime-gateway/src/fanout.rs:79-93 | For every n above 1 a reachable state with n workers in which a connection's queue holds number 2 of a topic before number 1 |
| `Pipeline.WriterReceivesWhatWasSent` | crates/realtime-gateway/src/connection/send.rs:22-38 | In every interleaving a connection's writer has taken, or finds queued, exactly what was sent to it, in order, before and after the connection is removed |
| `Pipeline.StepKeepsConnection` | crates/realtime-gateway/src/connection/send.rs:22-38 | Each step keeps that, the queue within capacity, and ids unused twice |
| `Pipeline.FullQueueIsIsolated` | crates/realtime-gateway/src/connection/send.rs:41-56 | A full queue on one connection changes nothing on it or on any other |
| `Pipeline.StepsComposeToHandleDispatch` | crates/realtime-gateway/src/fanout.rs:126-148 | Uninterrupted, the steps of one delivery do what the sequential `HandleDispatch` does |
| `PipelineEndings.GiveWaitsForRoom` | crates/realtime-gateway/src/fanout.rs:79-93 | The dispatcher passes a batch on as soon as the worker whose turn it is has died or has fewer than 8192 batches queued |
| `PipelineEndings.GiveTakesTurns` | crates/realtime-gateway/src/fanout.rs:79-93 | The turn goes round by one and only the worker whose turn it is receives the batch |
| `PipelineEndings.QueuesAreBounded` | crates/realtime-gateway/src/fanout.rs:54-93 | In every interleaving the dispatch channel and every worker's queue stay within their capacities |
| `PipelineEndings.WhatEndsStaysEnded` | crates/realtime-gateway/src/fanout.rs:75-148 | In every interleaving, after the dispatcher or a worker stops, or a connection hangs up or is removed, it does nothing any more, and what is offered to such a connection finds it gone |
| `PipelineEndings.RegistrationOpensAQueue` | crates/realtime-gateway/src/connection/mod.rs:76-91 | A registration opens an empty queue of the configured capacity under the policy asked for, on an id not used before |
| `HighWaterMarks.FinalMarkIsMaximum` | crates/realtime-engine/src/router.rs:119-132 | For any number of callers, any interleaving and spurious failures: the mark is always the initial or a submitted value, and the maximum once all have returned |
| `HighWaterMarks.MarkNeverDecreases` | crates/realtime-engine/src/filter_index/stats.rs:112-124 | The mark never decreases along a run |
| `HighWaterMarks.ReasonedMissMeansProgress` | crates/realtime-engine/src/router.rs:122-130 | A failed exchange with a reason means the caller sees a larger mark next |
| `HighWaterMarks.CallerMoves` | crates/realtime-engine/src/router.rs:119-132 | A caller is never stuck before it returns, and tries again exactly while its value is larger than the mark it saw |
| `HighWaterMarks.UninterruptedCall` | crates/realtime-engine/src/router.rs:119-132 | A call nobody interrupts leaves the larger of the mark and its value |
| `Presence.PresenceTracker.Track` | crates/realtime-engine/src/presence.rs:72-84 | The member is recorded under its connection; the result is the topic's members |
| `Presence.PresenceTracker.Untrack` | crates/realtime-engine/src/presence.rs:89-107 | The remaining members when it was present, nothing otherwise; other topics unchanged and no topic left empty |
| `Presence.PresenceTracker.RemoveConnection` | crates/realtime-engine/src/presence.rs:113-124 | The connection leaves every topic; exactly the topics it was in are reported, each once, with the remaining members |
| `Presence.PresenceUnderInterleaving` | crates/realtime-engine/src/presence.rs:89-107 | In every interleaving of tracks, removals, snapshots and prunes the members of every topic are the tracks not yet undone, and once all threads are idle no empty topic is left |
| `Presence.PruningDiscardsNobody` | crates/realtime-engine/src/presence.rs:99-105 | A prune takes away no member of any topic |
| `Presence.StepsComposeToUntrack` | crates/realtime-engine/src/presence.rs:89-107 | Uninterrupted, removal, snapshot and prune take the member out and the topic with it when it is empty |
| `Presence.TrackWaitsForReferences` | crates/realtime-engine/src/presence.rs:72-84 | A track can happen exactly when its thread is idle and no thread holds a reference into the topic |
| `Writers.ControlFramesGoOutInOrder` | crates/realtime-gateway/src/ws_handler/writer.rs:110-128 | In every interleaving the control frames produced are, in order, those written, the one in hand, the one whose write failed, those queued and those refused after the writer stopped; none is lost while the writer runs |
| `Writers.DataFramesGoOutInOrder` | crates/realtime-gateway/src/ws_handler/writer.rs:110-128 | In every interleaving events are taken in the order they were queued, and those that can be serialized are written in that order, none skipped and none twice, but for the one in hand and the one whose write failed |
| `Writers.GoodbyeLeavesOnlyLateFrames` | crates/realtime-gateway/src/ws_handler/writer.rs:111-117 | In every interleaving, when the writer is about to answer the goodbye, all control frames are on the wire if and only if none was produced since its last look at the control queue, and the ones left are those produced since |
| `Writers.CloseOvertakesExactly` | crates/realtime-gateway/src/ws_handler/connection.rs:87-118 | In every interleaving, once a Close is on the wire all control frames are too, if and only if: for the writer's own Close, none was produced since its last look; for the connection task's, the writer stopped with none in hand or queued and none was produced after |
| `Writers.NothingLateAfterReader` | crates/realtime-gateway/src/ws_handler/writer.rs:92-95 | If that look came after the reader's end, nothing is queued at the closing frame |
| `WriterRuns.CloseCanOvertakeALateFrame` | crates/realtime-gateway/src/ws_handler/writer.rs:111-117 | A reachable state in which a reply queued between the two looks of one turn was overtaken by the writer's closing frame |
| `WriterRuns.AnswerCanOvertakeAfterFailure` | crates/realtime-gateway/src/ws_handler/connection.rs:87-104 | A reachable state in which two queued replies, the first lost to a failed write, were overtaken by the connection task's Close |
| `WriterRuns.AnswerCanOvertakeASlowClient` | crates/realtime-gateway/src/ws_handler/connection.rs:87-104 | A reachable state on a working socket: after eleven slow frames the connection task's Close overtook a queued error |
| `Writers.AtMostOneClose` | crates/realtime-gateway/src/ws_handler/connection.rs:87-118 | In every interleaving at most one Close frame is written, by writer or connection task, and nothing follows it (section 5.5.1 of RFC 6455) |
| `WriterAnswers.ClientCloseIsAnswered` | crates/realtime-gateway/src/ws_handler/connection.rs:87-118 | In every interleaving without a timeout or a failed Close, a client that closed has been sent a Close when the connection is done, if and only if the writer did not stop on a failed or slow frame after it had been asked to answer |
| `WriterAnswers.ClientCloseCanGoUnanswered` | crates/realtime-gateway/src/ws_handler/connection.rs:106-118 | A run without timeout or failed Close in which the writer, asked to answer, fails on a reply queued before, and nobody sends a Close |
| `WriterAnswers.TaskIsNeverStuck` | crates/realtime-gateway/src/ws_handler/connection.rs:87-118 | The connection task has a step to take until it is done, once either side has ended |
| `Writers.WriterStopsSoonAfterGoodbye` | crates/realtime-gateway/src/ws_handler/writer.rs:110-128 | In every interleaving, once the goodbye is ready the writer's turns are one per control frame taken of those queued then, at most one for data and only if it was looking at the data queue then, and one for the closing frame |
| `WriterRuns.DataAfterGoodbyeExactness` | crates/realtime-gateway/src/ws_handler/writer.rs:110-128 | When the goodbye becomes ready, no continuation selects a data frame if and only if the writer is not looking at the data queue, or that is empty with its sender gone |
| `Writers.TurnsSinceReaderEnd` | crates/realtime-gateway/src/ws_handler/writer.rs:92-95 | In every interleaving, from the reader's end the turns are one per control frame taken of those queued then, one per data frame, and one for the closing frame |
| `WriterRuns.TurnsBoundExactness` | crates/realtime-gateway/src/ws_handler/writer.rs:92-95 | At the reader's end: in every continuation the turns stay within the control frames queued then and one more, if and only if the writer has already stopped, or the data queue is empty with its sender gone |
| `WriterRuns.DataCanFollowReaderEnd` | crates/realtime-gateway/src/ws_handler/writer.rs:92-95 | For every k a reachable state in which, with nothing queued at the reader's end, k data frames were taken since and the goodbye is not ready |
| `Writers.WriterTerminates` | crates/realtime-gateway/src/ws_handler/writer.rs:110-128 | Once the goodbye is ready every writer step lowers a bound no other step raises |
| `Writers.WriterIsNeverStuck` | crates/realtime-gateway/src/ws_handler/writer.rs:110-128 | Without spurious wake-ups the writer rests if and only if it has stopped, or is parked with nothing queued and no goodbye |
| `Writers.SlowClientStopsAtEleven` | crates/realtime-gateway/src/ws_handler/writer.rs:48-59 | In every interleaving the writer gives up on a slow client exactly when eleven frames in a row were slow |
| `Writers.SlowIsOverATenth` | crates/realtime-gateway/src/ws_handler/writer.rs:48-59 | A frame is slow exactly when its write took more than 100 milliseconds, and the eleventh in a row stops the writer at once |
| `Writers.ProduceWaitsForRoom` | crates/realtime-gateway/src/ws_handler/connection.rs:61 | The reader can hand over a control frame exactly while it reads and fewer than 64 are queued or the writer has stopped |
| `Writers.EnqueueNeedsRegistration` | crates/realtime-gateway/src/ws_handler/writer.rs:110-128 | An event can be handed over exactly while the connection is registered |
| `Writers.StepKeepsProtocol` | crates/realtime-gateway/src/ws_handler/connection.rs:78-118 | The goodbye is ready only after the reader ended or the writer stopped; the sink is handed back exactly when the writer did not say goodbye |
| `TopicPatterns.ParseAsStrRoundTrip` | crates/realtime-core/src/types/topic_pattern.rs:73-94 | Parsing what a parsed pattern prints gives it back, different texts parse to different patterns, and the kind of pattern follows from the star and the last character |
| `TopicPatterns.PlainTextMatches` | crates/realtime-core/src/types/topic_pattern.rs:73-84 | Parsed, a text without a star that ends in a slash matches what it starts, and any other matches itself alone |
| `TopicPatterns.StarTextMatches` | crates/realtime-core/src/types/topic_pattern.rs:103-119 | Parsed, a text with a star matches segment by segment up to its first `**`, where `*` takes any segment |
| `TopicPatterns.GlobMatch` | crates/realtime-core/src/types/topic_pattern.rs:103-119 | The indexed loop returns true exactly when the recursive relation over segments holds |
| `TopicPatterns.GlobClosedForm` | crates/realtime-core/src/types/topic_pattern.rs:103-119 | The relation without recursion: segments before the first `**` match one by one, and without a `**` lengths agree |
| `TopicPatterns.LiteralGlobMatchesOnlyItself` | crates/realtime-core/src/types/topic_pattern.rs:103-119 | A glob without a `*` or `**` segment matches only the identical string |
| `AuthClaims.AcceptedPatternContained` | crates/realtime-core/src/types/auth_claims.rs:76-124 | An accepted pattern matches only topics in granted namespaces if and only if its first segment is literal, or the claims hold `*` and nothing is effectively protected |
| `AuthClaims.AcceptanceExactness` | crates/realtime-core/src/types/auth_claims.rs:76-124 | A text is accepted if and only if the claims may subscribe and grant its first segment by name, or by `*` while no protected prefix starts it |
| `AuthClaims.NamespaceExactness` | crates/realtime-core/src/types/topic_path.rs:63-65 | The namespace of a topic is its text before the first slash, or all of it |
| `AuthClaims.LiteralPatternFixesNamespace` | crates/realtime-core/src/types/auth_claims.rs:113-124 | Every topic a pattern with a literal first segment matches lies in the pattern's own namespace |
| `AuthClaims.WildcardReachesEveryNamespace` | crates/realtime-core/src/types/auth_claims.rs:113-124 | A pattern with a wildcard first segment matches a topic in every namespace |
| `AuthClaims.WildcardEscapesProtection` | crates/realtime-core/src/types/auth_claims.rs:102-110 | A `*` grant accepts `*/x`, which matches a topic in a protected namespace |
| `Irc.PublishedMessageArrives` | crates/realtime-bus-irc/src/client.rs:117-162 | A message to any blank-free room, relayed and read from the stream, arrives with its nick and text, and under its own topic if and only if the room does not start with `#` |
| `Irc.LineRoundTrip` | crates/realtime-bus-irc/src/client.rs:183-208 | Any command to one target with a text reads back, with any space-free prefix or none |
| `Irc.TextlessRoundTrip` | crates/realtime-bus-irc/src/client.rs:183-208 | A command to one target without a text reads back without one |
| `Irc.NextWord` | crates/realtime-bus-irc/src/client.rs:198-200 | The words of a line, one at a time: blanks, then what stands up to the next blank |
| `Irc.WhitespaceIsUnicodes` | crates/realtime-bus-irc/src/client.rs:198-200 | The blanks are the code points of the Unicode property White_Space |
| `Irc.PrivMsgRoundTrip` | crates/realtime-bus-irc/src/client.rs:183-208 | Formatting a message, adding any space-free prefix and parsing gives back prefix, channel and text |
| `Irc.ForwardedExactly` | crates/realtime-bus-irc/src/client.rs:117-162 | Of the lines with one target and a text exactly the messages to a channel are forwarded, in upper or lower case, with the nick before the host, the text and the room; joins, notices and direct messages are not |
| `Irc.ReadLineRoundTrip` | crates/realtime-bus-irc/src/client.rs:90-97 | A line written with its line end reads back, whatever follows |
| `Irc.ReadLineExactness` | crates/realtime-bus-irc/src/client.rs:90-97 | What is read of any stream is its text up to the first line feed, without the carriage returns before it |
| `Irc.TopicRoundTrip` | crates/realtime-bus-irc/src/mapping.rs:13-29 | Topic to channel to topic is the identity if and only if the room does not start with `#` |
| `Irc.ChannelExactness` | crates/realtime-bus-irc/src/mapping.rs:13-29 | A topic of the bridged namespace has its room as channel, with a hash put before it only where it has none, and no other topic has a channel |
| `Irc.ChannelRoundTrip` | crates/realtime-bus-irc/src/mapping.rs:13-29 | Channel to topic to channel is the identity if and only if the channel starts with exactly one `#` |
| `Nicknames.ToIrcNick` | crates/realtime-bus-irc/src/identity.rs:52-83 | A nickname by the rules of section 2.3.1 of RFC 2812, of at most max(max_len, 1) characters: the cut body and the suffix where that starts legally, else that with a leading u, cut again |
| `Nicknames.LegalIsRfc` | crates/realtime-bus-irc/src/identity.rs:12-22 | The code's rules for a nickname are exactly those of section 2.3.1 of RFC 2812 |
| `Nicknames.NickCharsExactness` | crates/realtime-bus-irc/src/identity.rs:65-74 | Exactly the legal characters of a name are kept, in order |
| `Nicknames.Base36` | crates/realtime-bus-irc/src/identity.rs:35-43 | The loop fills exactly the last digits; read back in base 36 they give the number modulo 36^len |
| `Nicknames.DigitsReadBack` | crates/realtime-bus-irc/src/identity.rs:35-43 | The digit function reads back as the number modulo 36^len |

## Left out

- Floating-point filter values: numbers are 64-bit integers or absent; rendering of floats does not respect equality.
- Registries.LookupsAfterAnyRun: no subscribe of the run is admitted for a pair that is live (`Run` proves that this is exactly when maps and index end in agreement), patterns come from parsing, and no name contains the key separator.
- Registries.Run: what the operations after the first such subscribe do is left out; `OldSlotOutlivesItsPair` says what stays behind.
- Interleaving inside one index or registry operation, and concurrent callers of the circuit breaker: these operations are atomic here.
- JSON parsing and printing: a payload is a parsed tree or nothing, with distinct object keys; the parser's limit on nesting is not modelled, so payload fields of any depth can hold a value.
- UnreadableFilters.KindTextExactness: a custom source kind's name consists of characters that debug formatting prints as themselves or as a one-letter escape; those it prints as `\u{…}` are not modelled.
- Wall-clock time: durations and times of checks are inputs; slow, fast, cooled down and timed out follow from them or are choices of a step.
- Names containing the key separator: the lookups require that no pattern or indexed field contains it (`Clean`); `NulMakesKeysCollide` shows why.
- Counter wrap-around of 64-bit statistics and sequence numbers, and overflow of `usize` sums in the pre-flight checks: these are unbounded here; the 32-bit slot ids and the 32-bit slow counter are modelled with their width.
- More than 2^32 live subscriptions: adding one requires fewer, or a total cap of at most 2^32; `AllocIdIsFresh` says exactly when an id is fresh.
- FilterIndexes.FilterIndex.ForEachMatch: the callbacks are recorded as a sequence instead of being invoked, so a callback that re-enters the index is not captured.
- FilterIndexes.FilterIndex.IndexFilter: the tracked keys are returned rather than pushed into a caller's vector.
- The bitmap-returning `evaluate` entry point: it repeats the front half of the two lookups.
- Roaring compression and sharded maps: sets and maps.
- Routers.EventRouter.UpdateLargestBatch: sequential here; its retry loop under interleaving is in `HighWaterMarks`.
- Pipeline.WorkersKeepRoutingOrder: routing calls are atomic and come one at a time, as from the server's single bus loop; the matches are any distinct targets.
- FilterIndexes.FilterIndex.DispatchFiltered: the ids come in any order, not in ascending order.
- FilterIndexes.FilterIndex.DispatchBitmap: the ids come in any order, not in ascending order.
- Pipeline.EveryPairIsInOnePlace: single-target messages are batches of one, a task that stops takes its queue with it, and what a connection's writer does after taking a delivery is in `Writers`.
- Connections.ConnectionManager.HandleDispatch: sequential here; `Pipeline` interleaves its steps.
- Presence.PresenceUnderInterleaving: removing a whole connection is modelled sequentially; its steps under interleaving are those of `Remove`, `Snapshot` and `Prune`.
- Nicknames.ToIrcNick: the user id's hash is any number; the hash function itself and nickname collisions are left out, as is the numbered retry nickname.
- Writers.WriterStopsSoonAfterGoodbye: a write that hangs ends by its timeout, which is a step that may be taken at any time.
- Sockets, HTTP handlers, logging, configuration, metrics text, token verification, database and bus drivers, the shared presence store, usage metering, reconnect loops and the client SDK: plumbing over libraries, or easy members.

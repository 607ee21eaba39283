/** What a subscription is sent when its wire filter cannot be read
    (`crates/realtime-gateway/src/ws_handler/handlers.rs`, `crates/realtime-core/src/filter/`). */
module UnreadableFilters {
  import opened Wrappers
  import opened Text
  import opened TopicPatterns
  import opened Filters
  import opened WireFilters

  /** The clauses a wire filter lists, whether or not it can be read. */
  function ListedClauses(fields: seq<(string, Json)>): seq<Clause> {
    if fields == [] then []
    else (if fields[0].1.JObj? then FieldClauses(fields[0].0, fields[0].1.entries) else []) + ListedClauses(fields[1..])
  }

  function ClausesOf(v: Json): seq<Clause> {
    if v.JObj? then ListedClauses(v.entries) else []
  }

  lemma {:induction false} WireClausesAreListed(fields: seq<(string, Json)>)
    ensures WireClauses(fields).Some? ==> WireClauses(fields).value == ListedClauses(fields)
  {
    if fields != [] {
      WireClausesAreListed(fields[1..]);
    }
  }

  // ---------- Which strings a source kind prints as ----------

  /** What the second character of an escape stands for. */
  function EscapeMeans(c: char): Option<char> {
    if c == '"' then Some('"')
    else if c == '\\' then Some('\\')
    else if c == 'n' then Some('\n')
    else if c == 'r' then Some('\r')
    else if c == 't' then Some('\t')
    else if c == '0' then Some('\0')
    else None
  }

  /** Reads an escaped string back, if it is one. */
  function Unescaped(t: string): Option<string>
    decreases |t|
  {
    if t == "" then Some("")
    else if t[0] == '\\' then
      if |t| < 2 || EscapeMeans(t[1]).None? then None
      else
        match Unescaped(t[2..])
        case None => None
        case Some(rest) => Some([EscapeMeans(t[1]).value] + rest)
    else if EscapedChar(t[0]) != [t[0]] then None
    else
      match Unescaped(t[1..])
      case None => None
      case Some(rest) => Some([t[0]] + rest)
  }

  lemma EscapedCharReads(c: char, t: string)
    ensures Unescaped(EscapedChar(c) + t) ==
            match Unescaped(t)
            case None => None
            case Some(rest) => Some([c] + rest)
  {
    var u := EscapedChar(c) + t;
    if EscapedChar(c) == [c] {
      assert u[0] == c && u[1..] == t;
    } else {
      assert u[0] == '\\' && u[2..] == t && EscapeMeans(u[1]) == Some(c);
    }
  }

  lemma {:induction false} EscapeReadsBack(s: string)
    ensures Unescaped(Escaped(s)) == Some(s)
  {
    hide Unescaped, EscapedChar;
    if s == "" {
      EmptyReads();
    } else {
      EscapeReadsBack(s[1..]);
      EscapedCharReads(s[0], Escaped(s[1..]));
      assert [s[0]] + s[1..] == s;
    }
  }

  lemma EmptyReads()
    ensures Unescaped("") == Some("")
  {
  }

  lemma MeaningEscapes(d: char)
    ensures EscapeMeans(d).Some? ==> EscapedChar(EscapeMeans(d).value) == ['\\', d]
  {
  }

  lemma ReadsEscape(t: string)
    requires t != "" && t[0] == '\\' && Unescaped(t).Some?
    ensures |t| >= 2 && EscapeMeans(t[1]).Some? && Unescaped(t[2..]).Some?
    ensures Unescaped(t).value == [EscapeMeans(t[1]).value] + Unescaped(t[2..]).value
  {
    hide EscapeMeans, EscapedChar;
  }

  lemma ReadsPlain(t: string)
    requires t != "" && t[0] != '\\' && Unescaped(t).Some?
    ensures EscapedChar(t[0]) == [t[0]] && Unescaped(t[1..]).Some?
    ensures Unescaped(t).value == [t[0]] + Unescaped(t[1..]).value
  {
    hide EscapeMeans, EscapedChar;
  }

  lemma {:induction false} ReadBackEscapes(t: string)
    ensures Unescaped(t).Some? ==> Escaped(Unescaped(t).value) == t
    decreases |t|
  {
    hide Unescaped, EscapedChar, EscapeMeans;
    if t == "" {
      EmptyReads();
    } else if Unescaped(t).Some? {
      var s := Unescaped(t).value;
      if t[0] == '\\' {
        ReadsEscape(t);
        MeaningEscapes(t[1]);
        ReadBackEscapes(t[2..]);
        assert s[1..] == Unescaped(t[2..]).value && t == [t[0], t[1]] + t[2..];
      } else {
        ReadsPlain(t);
        ReadBackEscapes(t[1..]);
        assert s[1..] == Unescaped(t[1..]).value && t == [t[0]] + t[1..];
      }
    }
  }

  const CUSTOM_OPEN := "Custom(\""
  const CUSTOM_CLOSE := "\")"

  /** The four fixed names, or an escaped name in its wrapping. */
  predicate IsKindText(s: string) {
    || s == "Api" || s == "Database" || s == "Scheduler" || s == "Webhook"
    || (|s| >= |CUSTOM_OPEN| + |CUSTOM_CLOSE| && StartsWith(s, CUSTOM_OPEN) && EndsWith(s, CUSTOM_CLOSE)
        && Unescaped(s[|CUSTOM_OPEN|..|s| - |CUSTOM_CLOSE|]).Some?)
  }

  lemma CustomText(inner: string)
    requires Unescaped(inner).Some?
    ensures IsKindText(CUSTOM_OPEN + inner + CUSTOM_CLOSE)
  {
    hide Unescaped;
    var s := CUSTOM_OPEN + inner + CUSTOM_CLOSE;
    assert s[|CUSTOM_OPEN|..|s| - |CUSTOM_CLOSE|] == inner;
  }

  lemma KindTextIsSuch(k: SourceKind)
    ensures IsKindText(KindText(k))
  {
    hide Unescaped, Escaped;
    if k.Custom? {
      EscapeReadsBack(k.name);
      CustomText(Escaped(k.name));
      assert KindText(k) == CUSTOM_OPEN + Escaped(k.name) + CUSTOM_CLOSE;
    }
  }

  lemma KindOfText(s: string) returns (k: SourceKind)
    requires IsKindText(s)
    ensures KindText(k) == s
  {
    hide Unescaped, Escaped;
    if s == "Api" {
      return Api;
    } else if s == "Database" {
      return Database;
    } else if s == "Scheduler" {
      return Scheduler;
    } else if s == "Webhook" {
      return Webhook;
    }
    var inner := s[|CUSTOM_OPEN|..|s| - |CUSTOM_CLOSE|];
    ReadBackEscapes(inner);
    assert s == CUSTOM_OPEN + inner + CUSTOM_CLOSE;
    k := Custom(Unescaped(inner).value);
  }

  /** A source kind prints as exactly these strings. */
  lemma KindTextExactness(s: string)
    ensures IsKindText(s) <==> exists k :: KindText(k) == s
  {
    hide IsKindText, KindText;
    if IsKindText(s) {
      var _ := KindOfText(s);
    }
    if k :| KindText(k) == s {
      KindTextIsSuch(k);
    }
  }

  /** A printed kind tells which it is: the fixed kinds print their names and a custom one
      an escaped string that reads back as its name. */
  lemma KindTextTells(k: SourceKind)
    ensures KindText(k) == "Api" <==> k == Api
    ensures KindText(k) == "Database" <==> k == Database
    ensures KindText(k) == "Scheduler" <==> k == Scheduler
    ensures KindText(k) == "Webhook" <==> k == Webhook
    ensures k.Custom? ==>
              var s := KindText(k);
              && |s| >= |CUSTOM_OPEN| + |CUSTOM_CLOSE| && StartsWith(s, CUSTOM_OPEN) && EndsWith(s, CUSTOM_CLOSE)
              && Unescaped(s[|CUSTOM_OPEN|..|s| - |CUSTOM_CLOSE|]) == Some(k.name)
  {
    hide Unescaped, Escaped;
    if k.Custom? {
      EscapeReadsBack(k.name);
      var s := CUSTOM_OPEN + Escaped(k.name) + CUSTOM_CLOSE;
      assert KindText(k) == s && s[|CUSTOM_OPEN|..|s| - |CUSTOM_CLOSE|] == Escaped(k.name);
      assert s[0] == 'C';
    }
  }

  // ---------- Which clauses can reject an event ----------

  /** Fields of the envelope, which hold strings if anything. */
  predicate IsEnvelopeField(field: string) {
    || field == "event_type" || field == "topic" || field == "source.kind" || field == "source.id"
    || StartsWith(field, METADATA_PREFIX)
  }

  /** Some event on a topic the pattern matches holds this value in this field. */
  predicate CanHold(p: TopicPattern, field: string, v: Value) {
    if field == "topic" then v.Str? && Matches(p, v.s)
    else if field == "source.kind" then v.Str? && IsKindText(v.s)
    else IsEnvelopeField(field) ==> v.Str?
  }

  /** Some such event holds none of these values there: only the topic can be forced. */
  predicate CanAvoid(p: TopicPattern, field: string, vs: seq<Value>) {
    field == "topic" && OnlyTopic(p).Some? ==> Str(OnlyTopic(p).value) !in vs
  }

  /** What a caller can check of a clause and a pattern: some matching event fails the clause. */
  predicate Rejectable(p: TopicPattern, c: Clause)
    requires ClauseWellFormed(c)
  {
    if c.op == "ne" then CanHold(p, c.field, OperandValue(c.val))
    else if c.op == "eq" then CanAvoid(p, c.field, [OperandValue(c.val)])
    else CanAvoid(p, c.field, OperandValues(c.val.items))
  }

  /** Nested objects along a path. */
  function Nested(path: seq<string>, leaf: Json): Json {
    if path == [] then leaf else JObj([(path[0], Nested(path[1..], leaf))])
  }

  lemma {:induction false} WalkNested(path: seq<string>, leaf: Json)
    ensures Walk(Nested(path, leaf), path) == Some(leaf)
  {
    if path != [] {
      WalkNested(path[1..], leaf);
    }
  }

  lemma PayloadHolding(path: string, v: Value)
    ensures PayloadField(Some(Nested(Split(path, '.'), ValueJson(v))), path) == Some(v)
  {
    WalkNested(Split(path, '.'), ValueJson(v));
  }

  function PayloadPath(field: string): string {
    if StartsWith(field, PAYLOAD_PREFIX) then field[|PAYLOAD_PREFIX|..] else field
  }

  /** A matching event that holds `v` in `field`. */
  lemma EventHolding(p: TopicPattern, field: string, v: Value) returns (e: Event)
    requires CanHold(p, field, v)
    ensures Matches(p, e.topic) && GetterOf(e)(field) == Some(v)
  {
    var topic := SomeTopic(p);
    if field == "event_type" {
      e := Event(v.s, topic, None, None);
    } else if field == "topic" {
      e := Event("", v.s, None, None);
    } else if field == "source.kind" {
      KindTextExactness(v.s);
      var k :| KindText(k) == v.s;
      e := Event("", topic, Some(Source(k, "", map[])), None);
    } else if field == "source.id" {
      e := Event("", topic, Some(Source(Api, v.s, map[])), None);
    } else if StartsWith(field, METADATA_PREFIX) {
      e := Event("", topic, Some(Source(Api, "", map[field[|METADATA_PREFIX|..] := v.s])), None);
    } else {
      e := Event("", topic, None, Some(Nested(Split(PayloadPath(field), '.'), ValueJson(v))));
      PayloadHolding(PayloadPath(field), v);
    }
  }

  lemma HeldCanBeHeld(p: TopicPattern, e: Event, field: string)
    requires Matches(p, e.topic)
    ensures GetterOf(e)(field).Some? ==> CanHold(p, field, GetterOf(e)(field).value)
  {
    if field == "source.kind" && e.source.Some? {
      KindTextExactness(KindText(e.source.value.kind));
    }
  }

  function Spelling(v: Value): string {
    if v.Str? then v.s else ""
  }

  /** No string this long is among the values. */
  function LongestSpelling(vs: seq<Value>): (n: nat)
    ensures forall s: string :: |s| > n ==> Str(s) !in vs
  {
    var spellings := seq(|vs|, i requires 0 <= i < |vs| => Spelling(vs[i]));
    assert forall i :: 0 <= i < |vs| ==> |Spelling(vs[i])| == |spellings[i]| <= LongestLength(spellings);
    LongestLength(spellings)
  }

  /** A matching event without source or payload that holds none of the values in `field`. */
  lemma EventAvoiding(p: TopicPattern, field: string, vs: seq<Value>) returns (e: Event)
    requires CanAvoid(p, field, vs)
    ensures Matches(p, e.topic)
    ensures GetterOf(e)(field).Some? ==> GetterOf(e)(field).value !in vs
  {
    hide Matches, OnlyTopic, LongestSpelling;
    var topic: string;
    if OnlyTopic(p).Some? {
      topic := OnlyTopic(p).value;
      OnlyTopicMatches(p, topic);
    } else {
      topic := LongTopic(p, LongestSpelling(vs));
    }
    e := Event(Repeat('x', LongestSpelling(vs) + 1), topic, None, None);
  }

  lemma ForcedTopic(p: TopicPattern, e: Event, field: string, vs: seq<Value>)
    requires Matches(p, e.topic) && !CanAvoid(p, field, vs)
    ensures GetterOf(e)(field).Some? && GetterOf(e)(field).value in vs
  {
    OnlyTopicMatches(p, e.topic);
  }

  ghost predicate FailsSomewhere(p: TopicPattern, c: Clause)
    requires ClauseWellFormed(c)
  {
    exists e: Event :: Matches(p, e.topic) && !ClauseHolds(c, GetterOf(e))
  }

  lemma NeRejects(p: TopicPattern, c: Clause)
    requires ClauseWellFormed(c) && c.op == "ne"
    ensures Rejectable(p, c) <==> FailsSomewhere(p, c)
  {
    if Rejectable(p, c) {
      var e := EventHolding(p, c.field, OperandValue(c.val));
      assert !ClauseHolds(c, GetterOf(e));
    } else {
      forall e: Event | Matches(p, e.topic) ensures ClauseHolds(c, GetterOf(e)) {
        HeldCanBeHeld(p, e, c.field);
      }
    }
  }

  lemma OthersReject(p: TopicPattern, c: Clause, vs: seq<Value>)
    requires ClauseWellFormed(c) && c.op != "ne"
    requires vs == if c.op == "eq" then [OperandValue(c.val)] else OperandValues(c.val.items)
    ensures Rejectable(p, c) <==> FailsSomewhere(p, c)
  {
    assert forall g: Getter :: ClauseHolds(c, g) <==> g(c.field).Some? && g(c.field).value in vs;
    if Rejectable(p, c) {
      var e := EventAvoiding(p, c.field, vs);
      assert !ClauseHolds(c, GetterOf(e));
    } else {
      forall e: Event | Matches(p, e.topic) ensures ClauseHolds(c, GetterOf(e)) {
        ForcedTopic(p, e, c.field, vs);
      }
    }
  }

  /** A known clause rejects some event on a matching topic exactly when it is rejectable: an
      ne on a value its field can never hold is not, nor an eq or in the only topic meets. */
  lemma RejectableExactness(p: TopicPattern, c: Clause)
    requires ClauseWellFormed(c)
    ensures Rejectable(p, c) <==> FailsSomewhere(p, c)
  {
    if c.op == "ne" {
      NeRejects(p, c);
    } else {
      OthersReject(p, c, if c.op == "eq" then [OperandValue(c.val)] else OperandValues(c.val.items));
    }
  }

  // ---------- What gets past an unreadable filter ----------

  /** A subscription on `p` is sent an event that a known clause of its wire filter rejects. */
  ghost predicate RejectedYetSent(p: TopicPattern, v: Json, r: Option<FilterExpr>, c: Clause, e: Event) {
    && c in ClausesOf(v) && ClauseWellFormed(c) && !ClauseHolds(c, GetterOf(e))
    && Matches(p, e.topic) && FilterAccepts(r, GetterOf(e))
  }

  ghost predicate ListsRejectable(p: TopicPattern, v: Json, c: Clause) {
    c in ClausesOf(v) && ClauseWellFormed(c) && Rejectable(p, c)
  }

  lemma ReadableRejectsToo(p: TopicPattern, v: Json, r: Option<FilterExpr>, c: Clause, e: Event)
    requires ReadAs(v, r) && ParsedClauses(v).Some?
    ensures !RejectedYetSent(p, v, r, c, e)
  {
    WireClausesAreListed(v.entries);
    if c in ClausesOf(v) && ClauseWellFormed(c) && !ClauseHolds(c, GetterOf(e)) {
      var i :| 0 <= i < |ParsedClauses(v).value| && ParsedClauses(v).value[i] == c;
      assert !ClauseAccepts(ParsedClauses(v).value[i], GetterOf(e));
    }
  }

  /** An unreadable filter becomes no filter, so a subscription can be sent an event that a
      known clause of its own filter rejects if and only if the filter is unreadable and
      lists a known clause that some event on a matching topic fails. */
  lemma UnreadableFilterAcceptsAll(p: TopicPattern, v: Json, r: Option<FilterExpr>)
    requires ReadAs(v, r)
    ensures (exists c, e: Event :: RejectedYetSent(p, v, r, c, e)) <==>
            ParsedClauses(v).None? && exists c :: ListsRejectable(p, v, c)
  {
    hide Matches, Rejectable, ClauseHolds;
    if ParsedClauses(v).Some? {
      forall c, e: Event ensures !RejectedYetSent(p, v, r, c, e) {
        ReadableRejectsToo(p, v, r, c, e);
      }
    } else {
      if c, e: Event :| RejectedYetSent(p, v, r, c, e) {
        RejectableExactness(p, c);
        assert ListsRejectable(p, v, c);
      }
      if c :| ListsRejectable(p, v, c) {
        RejectableExactness(p, c);
        var e: Event :| Matches(p, e.topic) && !ClauseHolds(c, GetterOf(e));
        assert RejectedYetSent(p, v, r, c, e);
      }
    }
  }

  const MISSPELT := [("event_type", JObj([("eq", JStr("created"))])), ("n", JObj([("gt", JInt(7))]))]

  lemma MisspeltClauses()
    ensures WireClauses(MISSPELT) == Some([Clause("event_type", "eq", JStr("created")), Clause("n", "gt", JInt(7))])
  {
    var good, bad := Clause("event_type", "eq", JStr("created")), Clause("n", "gt", JInt(7));
    var rest := MISSPELT[1..];
    assert rest[0] == MISSPELT[1] && rest[1..] == [];
    assert FieldClauses("event_type", [("eq", JStr("created"))]) == [good];
    assert FieldClauses("n", [("gt", JInt(7))]) == [bad];
    assert WireClauses(rest) == Some([bad] + []) && [bad] + [] == [bad];
    assert [good] + [bad] == [good, bad];
  }

  lemma MisspeltIsUnreadable()
    ensures ParsedClauses(JObj(MISSPELT)).None?
  {
    hide WireClauses;
    MisspeltClauses();
    assert !ClauseWellFormed(WireClauses(MISSPELT).value[1]);
  }

  /** One misspelt operator beside a good clause: the good clause rejects the event, and
      the subscription is sent it. */
  lemma MisspeltOperatorExample(r: Option<FilterExpr>)
    requires ReadAs(JObj(MISSPELT), r)
    ensures RejectedYetSent(Parse("orders"), JObj(MISSPELT), r, Clause("event_type", "eq", JStr("created")),
                            Event("deleted", "orders", None, None))
  {
    hide ParsedClauses, WireClauses, ListedClauses;
    MisspeltIsUnreadable();
    MisspeltClauses();
    WireClausesAreListed(MISSPELT);
    assert ListedClauses(MISSPELT)[0] == Clause("event_type", "eq", JStr("created"));
  }
}

/** Events, field lookup and filter expressions
    (`crates/realtime-core/src/filter/expr.rs`, `getter.rs`). */
module Filters {
  import opened Wrappers
  import opened Text

  // ---------- JSON payloads and events ----------

  /** A parsed payload. Object keys are distinct; numbers that are not 64-bit
      integers are not part of this model. */
  datatype Json =
    | JNull
    | JBool(b: bool)
    | JInt(i: int)
    | JStr(s: string)
    | JArr(items: seq<Json>)
    | JObj(entries: seq<(string, Json)>)

  datatype Value = Str(s: string) | Int(i: int) | Bool(b: bool) | Null

  datatype SourceKind = Api | Database | Scheduler | Webhook | Custom(name: string)

  datatype Source = Source(kind: SourceKind, id: string, metadata: map<string, string>)

  /** `payload` is what parsing the payload bytes yields: `None` when they are not JSON. */
  datatype Event = Event(eventType: string, topic: string, source: Option<Source>, payload: Option<Json>)

  function Lookup(entries: seq<(string, Json)>, key: string): Option<Json> {
    if entries == [] then None
    else if entries[0].0 == key then Some(entries[0].1)
    else Lookup(entries[1..], key)
  }

  function Get(j: Json, key: string): Option<Json> {
    if j.JObj? then Lookup(j.entries, key) else None
  }

  function Walk(j: Json, path: seq<string>): Option<Json>
    decreases |path|
  {
    if path == [] then Some(j)
    else match Get(j, path[0])
      case None => None
      case Some(child) => Walk(child, path[1..])
  }

  /** Arrays and objects are not filterable. */
  function JsonToValue(j: Json): Option<Value> {
    match j
    case JNull => Some(Null)
    case JBool(b) => Some(Bool(b))
    case JInt(i) => Some(Int(i))
    case JStr(s) => Some(Str(s))
    case JArr(_) => None
    case JObj(_) => None
  }

  function PayloadField(parsed: Option<Json>, path: string): Option<Value> {
    match parsed
    case None => None
    case Some(root) =>
      match Walk(root, Split(path, '.'))
      case None => None
      case Some(leaf) => JsonToValue(leaf)
  }

  // ---------- Fields on the JSON tree ----------

  /** The scalar a value is read from. */
  function ValueJson(v: Value): Json {
    match v
    case Str(s) => JStr(s)
    case Int(i) => JInt(i)
    case Bool(b) => JBool(b)
    case Null => JNull
  }

  /** Member `i` is the one a key finds: no member before it has the key. */
  predicate FirstWith(entries: seq<(string, Json)>, key: string, i: nat) {
    i < |entries| && entries[i].0 == key && forall j :: 0 <= j < i ==> entries[j].0 != key
  }

  /** Every member of an object is found, the first of its key, and nothing is found exactly
      when no member has the key. */
  lemma {:induction false} LookupExactness(entries: seq<(string, Json)>, key: string)
    ensures forall i: nat :: FirstWith(entries, key, i) ==> Lookup(entries, key) == Some(entries[i].1)
    ensures Lookup(entries, key).None? <==> forall i :: 0 <= i < |entries| ==> entries[i].0 != key
    ensures Lookup(entries, key).Some? ==> exists i: nat :: FirstWith(entries, key, i)
  {
    if entries != [] {
      var rest := entries[1..];
      LookupExactness(rest, key);
      assert forall i :: 1 <= i < |entries| ==> entries[i] == rest[i - 1];
      if entries[0].0 == key {
        assert FirstWith(entries, key, 0);
      } else {
        forall i: nat | FirstWith(entries, key, i) ensures Lookup(entries, key) == Some(entries[i].1) {
          assert FirstWith(rest, key, i - 1);
        }
        if i: nat :| FirstWith(rest, key, i) {
          assert FirstWith(entries, key, i + 1);
        }
      }
    }
  }

  /** `child` is what the first member under `key` holds. */
  ghost predicate ChildAt(j: Json, key: string, child: Json) {
    j.JObj? && exists i: nat :: FirstWith(j.entries, key, i) && child == j.entries[i].1
  }

  /** Going down one segment at a time from `root` passes these nodes. */
  ghost predicate IsTrail(root: Json, path: seq<string>, nodes: seq<Json>) {
    && |nodes| == |path| + 1 && nodes[0] == root
    && forall n :: 0 <= n < |path| ==> ChildAt(nodes[n], path[n], nodes[n + 1])
  }

  ghost predicate LeadsTo(root: Json, path: seq<string>, leaf: Json) {
    exists nodes :: IsTrail(root, path, nodes) && nodes[|path|] == leaf
  }

  lemma GetExactness(j: Json, key: string, child: Json)
    ensures Get(j, key) == Some(child) <==> ChildAt(j, key, child)
  {
    if j.JObj? {
      LookupExactness(j.entries, key);
    }
  }

  lemma {:induction false} WalkExactness(root: Json, path: seq<string>, leaf: Json)
    ensures Walk(root, path) == Some(leaf) <==> LeadsTo(root, path, leaf)
    decreases |path|
  {
    hide ChildAt, Get;
    if path == [] {
      assert IsTrail(root, path, [root]);
    } else {
      if Walk(root, path) == Some(leaf) {
        var child := Get(root, path[0]).value;
        GetExactness(root, path[0], child);
        WalkExactness(child, path[1..], leaf);
        var below :| IsTrail(child, path[1..], below) && below[|path| - 1] == leaf;
        assert IsTrail(root, path, [root] + below);
      }
      if nodes :| IsTrail(root, path, nodes) && nodes[|path|] == leaf {
        GetExactness(root, path[0], nodes[1]);
        assert IsTrail(nodes[1], path[1..], nodes[1..]);
        WalkExactness(nodes[1], path[1..], leaf);
      }
    }
  }

  lemma PayloadFieldExactness(parsed: Option<Json>, path: string, v: Value)
    ensures PayloadField(parsed, path) == Some(v) <==>
            parsed.Some? && LeadsTo(parsed.value, Split(path, '.'), ValueJson(v))
  {
    if parsed.Some? {
      WalkExactness(parsed.value, Split(path, '.'), ValueJson(v));
    }
  }

  /** The walk that moves `current` one segment at a time. */
  method ExtractPayloadField(parsed: Option<Json>, path: string) returns (r: Option<Value>)
    ensures r == PayloadField(parsed, path)
    ensures forall v :: r == Some(v) <==>
              parsed.Some? && LeadsTo(parsed.value, Split(path, '.'), ValueJson(v))
  {
    forall v ensures PayloadField(parsed, path) == Some(v) <==>
        parsed.Some? && LeadsTo(parsed.value, Split(path, '.'), ValueJson(v))
    {
      PayloadFieldExactness(parsed, path, v);
    }
    if parsed.None? {
      return None;
    }
    var current := parsed.value;
    var segments := Split(path, '.');
    for i := 0 to |segments|
      invariant Walk(parsed.value, segments) == Walk(current, segments[i..])
    {
      var child := Get(current, segments[i]);
      if child.None? {
        return None;
      }
      current := child.value;
      assert segments[i..][1..] == segments[i + 1..];
    }
    return JsonToValue(current);
  }

  const METADATA_PREFIX := "source.metadata."
  const PAYLOAD_PREFIX := "payload."

  /** A character inside a quoted string, as debug formatting prints it. */
  function EscapedChar(c: char): string {
    if c == '"' then "\\\""
    else if c == '\\' then "\\\\"
    else if c == '\n' then "\\n"
    else if c == '\r' then "\\r"
    else if c == '\t' then "\\t"
    else if c == '\0' then "\\0"
    else [c]
  }

  function Escaped(s: string): string {
    if s == "" then "" else EscapedChar(s[0]) + Escaped(s[1..])
  }

  /** A source kind is looked up as debug formatting prints it. */
  function KindText(k: SourceKind): string {
    match k
    case Api => "Api"
    case Database => "Database"
    case Scheduler => "Scheduler"
    case Webhook => "Webhook"
    case Custom(name) => "Custom(\"" + Escaped(name) + "\")"
  }

  function MetadataField(e: Event, key: string): Option<Value> {
    if e.source.Some? && key in e.source.value.metadata
    then Some(Str(e.source.value.metadata[key]))
    else None
  }

  /** Field lookup against an already parsed payload. */
  function FieldCached(e: Event, field: string, parsed: Option<Json>): Option<Value> {
    if field == "event_type" then Some(Str(e.eventType))
    else if field == "topic" then Some(Str(e.topic))
    else if field == "source.kind" then
      (if e.source.Some? then Some(Str(KindText(e.source.value.kind))) else None)
    else if field == "source.id" then
      (if e.source.Some? then Some(Str(e.source.value.id)) else None)
    else if StartsWith(field, METADATA_PREFIX) then MetadataField(e, field[|METADATA_PREFIX|..])
    else if StartsWith(field, PAYLOAD_PREFIX) then PayloadField(parsed, field[|PAYLOAD_PREFIX|..])
    else PayloadField(parsed, field)
  }

  type Getter = string -> Option<Value>

  function CachedGetter(e: Event, parsed: Option<Json>): Getter {
    (field: string) => FieldCached(e, field, parsed)
  }

  /** The field lookup a filter is meant to be evaluated with: the payload is parsed. */
  function GetterOf(e: Event): Getter {
    CachedGetter(e, e.payload)
  }

  /** The event holds this scalar in this field: the envelope's fields hold strings, any
      other name is a path into the payload, with or without its prefix. */
  ghost predicate FieldHolds(e: Event, field: string, j: Json) {
    if field == "event_type" then j == JStr(e.eventType)
    else if field == "topic" then j == JStr(e.topic)
    else if field == "source.kind" then e.source.Some? && j == JStr(KindText(e.source.value.kind))
    else if field == "source.id" then e.source.Some? && j == JStr(e.source.value.id)
    else if StartsWith(field, "source.metadata.") then
      e.source.Some? && exists key :: key in e.source.value.metadata && field == "source.metadata." + key &&
                                      j == JStr(e.source.value.metadata[key])
    else
      && !j.JArr? && !j.JObj? && e.payload.Some?
      && LeadsTo(e.payload.value, Split(if StartsWith(field, "payload.") then field[8..] else field, '.'), j)
  }

  lemma FieldExactness(e: Event, field: string, v: Value)
    ensures GetterOf(e)(field) == Some(v) <==> FieldHolds(e, field, ValueJson(v))
  {
    hide LeadsTo, PayloadField, KindText;
    PayloadFieldExactness(e.payload, if StartsWith(field, PAYLOAD_PREFIX) then field[|PAYLOAD_PREFIX|..] else field, v);
    if StartsWith(field, METADATA_PREFIX) {
      assert field == METADATA_PREFIX + field[|METADATA_PREFIX|..];
    }
  }

  // ---------- Filter expressions ----------

  datatype FilterExpr =
    | Eq(field: string, value: Value)
    | Ne(field: string, value: Value)
    | In(field: string, values: seq<Value>)
    | And(left: FilterExpr, right: FilterExpr)
    | Or(left: FilterExpr, right: FilterExpr)
    | Not(inner: FilterExpr)

  ghost function TreeSize(f: FilterExpr): nat {
    match f
    case And(l, r) => TreeSize(l) + TreeSize(r) + 1
    case Or(l, r) => TreeSize(l) + TreeSize(r) + 1
    case Not(inner) => TreeSize(inner) + 1
    case _ => 1
  }

  predicate Evaluate(f: FilterExpr, g: Getter) {
    match f
    case Eq(field, v) => g(field) == Some(v)
    case Ne(field, v) => g(field) != Some(v)
    case In(field, vs) => g(field).Some? && g(field).value in vs
    case And(l, r) => Evaluate(l, g) && Evaluate(r, g)
    case Or(l, r) => Evaluate(l, g) || Evaluate(r, g)
    case Not(inner) => !Evaluate(inner, g)
  }

  /** Ne is the negation of Eq, In a choice of Eqs, and Not, And and Or obey De Morgan. */
  lemma EvaluationLaws(field: string, v: Value, vs: seq<Value>, l: FilterExpr, r: FilterExpr, g: Getter)
    ensures Evaluate(Ne(field, v), g) <==> Evaluate(Not(Eq(field, v)), g)
    ensures Evaluate(In(field, vs), g) <==> exists i :: 0 <= i < |vs| && Evaluate(Eq(field, vs[i]), g)
    ensures Evaluate(Not(And(l, r)), g) <==> Evaluate(Or(Not(l), Not(r)), g)
    ensures Evaluate(Not(Not(l)), g) <==> Evaluate(l, g)
  {
    if Evaluate(In(field, vs), g) {
      var i :| 0 <= i < |vs| && vs[i] == g(field).value;
      assert Evaluate(Eq(field, vs[i]), g);
    }
  }

  /** A stored filter: a subscription without one accepts every event. */
  predicate FilterAccepts(f: Option<FilterExpr>, g: Getter) {
    f.None? || Evaluate(f.value, g)
  }
}

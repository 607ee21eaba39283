/** Filters as clients write them: { field: { op: value, ... }, ... }
    (`crates/realtime-core/src/filter/expr.rs`). */
module WireFilters {
  import opened Wrappers
  import opened Filters

  datatype Clause = Clause(field: string, op: string, val: Json)

  /** Operands are read more loosely than payload fields: anything that is not a
      scalar counts as null. */
  function OperandValue(j: Json): Value {
    match JsonToValue(j)
    case Some(v) => v
    case None => Null
  }

  function OperandValues(items: seq<Json>): (vs: seq<Value>)
    ensures |vs| == |items| && forall i :: 0 <= i < |items| ==> vs[i] == OperandValue(items[i])
  {
    seq(|items|, i requires 0 <= i < |items| => OperandValue(items[i]))
  }

  predicate ClauseWellFormed(c: Clause) {
    c.op == "eq" || c.op == "ne" || (c.op == "in" && c.val.JArr?)
  }

  /** What one wire clause asks of an event. */
  predicate ClauseHolds(c: Clause, g: Getter)
    requires ClauseWellFormed(c)
  {
    if c.op == "eq" then g(c.field) == Some(OperandValue(c.val))
    else if c.op == "ne" then g(c.field) != Some(OperandValue(c.val))
    else exists i :: 0 <= i < |c.val.items| && g(c.field) == Some(OperandValue(c.val.items[i]))
  }

  /** The clause is one of the three known and holds. */
  predicate ClauseAccepts(c: Clause, g: Getter) {
    ClauseWellFormed(c) && ClauseHolds(c, g)
  }

  function ParseOperator(c: Clause): (r: Option<FilterExpr>)
    ensures r.Some? <==> ClauseWellFormed(c)
    ensures r.Some? ==> forall g: Getter :: Evaluate(r.value, g) <==> ClauseHolds(c, g)
  {
    if c.op == "eq" then Some(Eq(c.field, OperandValue(c.val)))
    else if c.op == "ne" then Some(Ne(c.field, OperandValue(c.val)))
    else if c.op == "in" && c.val.JArr? then Some(In(c.field, OperandValues(c.val.items)))
    else None
  }

  function FieldClauses(field: string, ops: seq<(string, Json)>): (cs: seq<Clause>)
    ensures |cs| == |ops| && forall i :: 0 <= i < |ops| ==> cs[i] == Clause(field, ops[i].0, ops[i].1)
  {
    seq(|ops|, i requires 0 <= i < |ops| => Clause(field, ops[i].0, ops[i].1))
  }

  /** All clauses of a wire filter, in order. A field whose condition is not an
      object makes the whole filter malformed. */
  function WireClauses(fields: seq<(string, Json)>): Option<seq<Clause>> {
    if fields == [] then Some([])
    else if !fields[0].1.JObj? then None
    else match WireClauses(fields[1..])
      case None => None
      case Some(rest) => Some(FieldClauses(fields[0].0, fields[0].1.entries) + rest)
  }

  /** The clauses of a filter that parses: an object, well formed throughout, with
      at least one clause. */
  function ParsedClauses(v: Json): Option<seq<Clause>> {
    if !v.JObj? then None
    else match WireClauses(v.entries)
      case None => None
      case Some(cs) => if cs != [] && forall i :: 0 <= i < |cs| ==> ClauseWellFormed(cs[i]) then Some(cs) else None
  }

  // ---------- What a wire filter means on the JSON it is written in ----------

  /** A scalar operand is itself, an array or an object counts as null. */
  function AsOperand(val: Json): Json {
    if val.JArr? || val.JObj? then JNull else val
  }

  /** What one operator of one field asks of an event. */
  ghost predicate OperatorHolds(e: Event, field: string, op: string, val: Json) {
    || (op == "eq" && FieldHolds(e, field, AsOperand(val)))
    || (op == "ne" && !FieldHolds(e, field, AsOperand(val)))
    || (op == "in" && val.JArr? && exists i :: 0 <= i < |val.items| && FieldHolds(e, field, AsOperand(val.items[i])))
  }

  predicate OperatorKnown(op: string, val: Json) {
    op == "eq" || op == "ne" || (op == "in" && val.JArr?)
  }

  /** An object of objects with known operators, at least one in all. */
  predicate Readable(v: Json) {
    && v.JObj?
    && (forall n :: 0 <= n < |v.entries| ==> v.entries[n].1.JObj?)
    && (exists n :: 0 <= n < |v.entries| && v.entries[n].1.entries != [])
    && forall n, m :: 0 <= n < |v.entries| && 0 <= m < |v.entries[n].1.entries| ==>
                        OperatorKnown(v.entries[n].1.entries[m].0, v.entries[n].1.entries[m].1)
  }

  /** Every operator of every field holds of the event. */
  ghost predicate WireAccepts(v: Json, e: Event)
    requires Readable(v)
  {
    forall n, m :: 0 <= n < |v.entries| && 0 <= m < |v.entries[n].1.entries| ==>
                     OperatorHolds(e, v.entries[n].0, v.entries[n].1.entries[m].0, v.entries[n].1.entries[m].1)
  }

  lemma OperandExactness(e: Event, field: string, val: Json)
    ensures GetterOf(e)(field) == Some(OperandValue(val)) <==> FieldHolds(e, field, AsOperand(val))
  {
    hide FieldHolds;
    FieldExactness(e, field, OperandValue(val));
    assert ValueJson(OperandValue(val)) == AsOperand(val);
  }

  lemma ClauseExactness(c: Clause, e: Event)
    ensures ClauseWellFormed(c) <==> OperatorKnown(c.op, c.val)
    ensures ClauseAccepts(c, GetterOf(e)) <==> OperatorHolds(e, c.field, c.op, c.val)
  {
    hide FieldHolds, OperandValue, AsOperand;
    OperandExactness(e, c.field, c.val);
    if c.val.JArr? {
      forall i | 0 <= i < |c.val.items|
        ensures GetterOf(e)(c.field) == Some(OperandValue(c.val.items[i])) <==>
                FieldHolds(e, c.field, AsOperand(c.val.items[i]))
      {
        OperandExactness(e, c.field, c.val.items[i]);
      }
    }
  }

  predicate ListsClause(fields: seq<(string, Json)>, n: nat, m: nat, c: Clause) {
    && n < |fields| && fields[n].1.JObj? && m < |fields[n].1.entries|
    && c == Clause(fields[n].0, fields[n].1.entries[m].0, fields[n].1.entries[m].1)
  }

  /** The clauses are one for each operator of each field. */
  lemma {:induction false} WireClausesExactness(fields: seq<(string, Json)>)
    ensures WireClauses(fields).Some? <==> forall n :: 0 <= n < |fields| ==> fields[n].1.JObj?
    ensures WireClauses(fields).Some? ==>
              forall c :: c in WireClauses(fields).value <==> exists n: nat, m: nat :: ListsClause(fields, n, m, c)
  {
    if fields != [] {
      var rest := fields[1..];
      WireClausesExactness(rest);
      assert forall n :: 1 <= n < |fields| ==> fields[n] == rest[n - 1];
      if WireClauses(fields).Some? {
        FirstOrRest(fields);
      }
    }
  }

  lemma FirstOrRest(fields: seq<(string, Json)>)
    requires fields != [] && WireClauses(fields).Some?
    requires forall c :: c in WireClauses(fields[1..]).value <==>
                         exists n: nat, m: nat :: ListsClause(fields[1..], n, m, c)
    ensures forall c :: c in WireClauses(fields).value <==> exists n: nat, m: nat :: ListsClause(fields, n, m, c)
  {
    var rest := fields[1..];
    var first := FieldClauses(fields[0].0, fields[0].1.entries);
    assert WireClauses(fields).value == first + WireClauses(rest).value;
    forall c ensures c in first + WireClauses(rest).value <==> exists n: nat, m: nat :: ListsClause(fields, n, m, c) {
      if c in first {
        var m :| 0 <= m < |first| && first[m] == c;
        assert ListsClause(fields, 0, m, c);
      }
      if n: nat, m: nat :| ListsClause(rest, n, m, c) {
        assert ListsClause(fields, n + 1, m, c);
      }
      if n: nat, m: nat :| ListsClause(fields, n, m, c) {
        if n == 0 {
          assert first[m] == c;
        } else {
          assert ListsClause(rest, n - 1, m, c);
        }
      }
    }
  }

  lemma ReadableExactness(v: Json)
    ensures ParsedClauses(v).Some? <==> Readable(v)
  {
    if v.JObj? {
      WireClausesExactness(v.entries);
      if WireClauses(v.entries).Some? {
        KnownExactness(v.entries, WireClauses(v.entries).value);
      }
    }
  }

  lemma KnownExactness(fields: seq<(string, Json)>, cs: seq<Clause>)
    requires forall n :: 0 <= n < |fields| ==> fields[n].1.JObj?
    requires forall c :: c in cs <==> exists n: nat, m: nat :: ListsClause(fields, n, m, c)
    ensures cs != [] <==> exists n :: 0 <= n < |fields| && fields[n].1.entries != []
    ensures (forall i :: 0 <= i < |cs| ==> ClauseWellFormed(cs[i])) <==>
            forall n, m :: 0 <= n < |fields| && 0 <= m < |fields[n].1.entries| ==>
                             OperatorKnown(fields[n].1.entries[m].0, fields[n].1.entries[m].1)
  {
    forall n, m | 0 <= n < |fields| && 0 <= m < |fields[n].1.entries|
      ensures Clause(fields[n].0, fields[n].1.entries[m].0, fields[n].1.entries[m].1) in cs
    {
      assert ListsClause(fields, n, m, Clause(fields[n].0, fields[n].1.entries[m].0, fields[n].1.entries[m].1));
    }
    if cs != [] {
      assert cs[0] in cs;
      var n: nat, m: nat :| ListsClause(fields, n, m, cs[0]);
    }
    if n :| 0 <= n < |fields| && fields[n].1.entries != [] {
      assert Clause(fields[n].0, fields[n].1.entries[0].0, fields[n].1.entries[0].1) in cs;
    }
    forall i | 0 <= i < |cs| ensures exists n: nat, m: nat :: ListsClause(fields, n, m, cs[i]) {
      assert cs[i] in cs;
    }
  }

  lemma AcceptsExactness(v: Json, e: Event)
    requires ParsedClauses(v).Some? && Readable(v)
    ensures WireAccepts(v, e) <==>
            forall i :: 0 <= i < |ParsedClauses(v).value| ==> ClauseAccepts(ParsedClauses(v).value[i], GetterOf(e))
  {
    hide ClauseAccepts, OperatorHolds;
    WireClausesExactness(v.entries);
    var cs := ParsedClauses(v).value;
    forall c: Clause ensures ClauseAccepts(c, GetterOf(e)) <==> OperatorHolds(e, c.field, c.op, c.val) {
      ClauseExactness(c, e);
    }
    forall i | 0 <= i < |cs| ensures exists n: nat, m: nat :: ListsClause(v.entries, n, m, cs[i]) {
      assert cs[i] in cs;
    }
    forall n, m | 0 <= n < |v.entries| && 0 <= m < |v.entries[n].1.entries|
      ensures Clause(v.entries[n].0, v.entries[n].1.entries[m].0, v.entries[n].1.entries[m].1) in cs
    {
      assert ListsClause(v.entries, n, m,
                         Clause(v.entries[n].0, v.entries[n].1.entries[m].0, v.entries[n].1.entries[m].1));
    }
  }

  ghost predicate Conjunction(exprs: seq<FilterExpr>, g: Getter) {
    forall i :: 0 <= i < |exprs| ==> Evaluate(exprs[i], g)
  }

  method CombineExprs(exprs: seq<FilterExpr>) returns (r: Option<FilterExpr>)
    ensures r.Some? <==> exprs != []
    ensures r.Some? ==> forall g: Getter :: Evaluate(r.value, g) <==> Conjunction(exprs, g)
  {
    if |exprs| == 0 {
      return None;
    }
    var combined := exprs[0];
    for i := 1 to |exprs|
      invariant forall g: Getter :: Evaluate(combined, g) <==> Conjunction(exprs[..i], g)
    {
      ghost var before := combined;
      combined := And(combined, exprs[i]);
      forall g: Getter ensures Evaluate(combined, g) <==> Conjunction(exprs[..i + 1], g) {
        assert Evaluate(combined, g) <==> Evaluate(before, g) && Evaluate(exprs[i], g);
        assert exprs[..i + 1] == exprs[..i] + [exprs[i]];
        assert exprs[..i + 1][i] == exprs[i];
        assert forall j :: 0 <= j < i ==> exprs[..i + 1][j] == exprs[..i][j];
      }
    }
    assert exprs[..|exprs|] == exprs;
    return Some(combined);
  }

  ghost predicate ExprsReadClauses(exprs: seq<FilterExpr>, cs: seq<Clause>) {
    |exprs| == |cs| && forall i :: 0 <= i < |cs| ==> ParseOperator(cs[i]) == Some(exprs[i])
  }

  /** `r` is what the wire filter is read as: nothing unless it is well formed and not
      empty, else the conjunction of every clause. */
  ghost predicate ReadAs(v: Json, r: Option<FilterExpr>) {
    && (r.Some? <==> ParsedClauses(v).Some?)
    && (r.Some? ==> forall g: Getter :: Evaluate(r.value, g) <==>
          forall i :: 0 <= i < |ParsedClauses(v).value| ==> ClauseAccepts(ParsedClauses(v).value[i], g))
  }

  /** The expression and the wire filter it was read from accept the same events. */
  ghost predicate SameMeaning(v: Json, r: Option<FilterExpr>) {
    && (r.Some? <==> Readable(v))
    && (r.Some? ==> forall e: Event :: Evaluate(r.value, GetterOf(e)) <==> WireAccepts(v, e))
  }

  lemma ReadAsExactly(v: Json, r: Option<FilterExpr>)
    requires ReadAs(v, r)
    ensures SameMeaning(v, r)
  {
    hide ParsedClauses, WireAccepts, ClauseAccepts, Readable;
    ReadableExactness(v);
    if r.Some? {
      forall e: Event ensures Evaluate(r.value, GetterOf(e)) <==> WireAccepts(v, e) {
        AcceptsExactness(v, e);
      }
    }
  }

  /** The implicit And over all fields and operators. It parses exactly the readable
      filters, and means the conjunction of every clause. */
  method FromJson(v: Json) returns (r: Option<FilterExpr>)
    ensures ReadAs(v, r) && SameMeaning(v, r)
  {
    forall expr | ReadAs(v, expr) ensures SameMeaning(v, expr) {
      ReadAsExactly(v, expr);
    }
    if !v.JObj? {
      return None;
    }
    var exprs: seq<FilterExpr> := [];
    ghost var done: seq<Clause> := [];
    PrependAssociates([], [], WireClauses(v.entries));
    for n := 0 to |v.entries|
      invariant ExprsReadClauses(exprs, done)
      invariant WireClauses(v.entries) == Prepend(done, WireClauses(v.entries[n..]))
    {
      var (field, condition) := v.entries[n];
      if !condition.JObj? {
        return None;
      }
      ghost var cs := FieldClauses(field, condition.entries);
      PrependAssociates(done, cs, WireClauses(v.entries[n + 1..]));
      assert v.entries[n..][1..] == v.entries[n + 1..];
      for m := 0 to |condition.entries|
        invariant ExprsReadClauses(exprs, done + cs[..m])
      {
        var expr := ParseOperator(Clause(field, condition.entries[m].0, condition.entries[m].1));
        if expr.None? {
          MalformedClauseRejects(v, done, cs, m, v.entries[n + 1..]);
          return None;
        }
        exprs := exprs + [expr.value];
        assert cs[..m + 1] == cs[..m] + [cs[m]];
      }
      done := done + cs;
      assert cs[..|cs|] == cs;
    }
    assert done + [] == done;
    assert WireClauses(v.entries) == Some(done);
    r := CombineExprs(exprs);
    if r.Some? {
      forall g: Getter
        ensures Evaluate(r.value, g) <==> forall i :: 0 <= i < |done| ==> ClauseAccepts(done[i], g)
      {
        assert forall i :: 0 <= i < |done| ==> (Evaluate(exprs[i], g) <==> ClauseHolds(done[i], g));
        assert Conjunction(exprs, g) <==> forall i :: 0 <= i < |done| ==> ClauseHolds(done[i], g);
      }
    }
  }

  ghost function Prepend(front: seq<Clause>, back: Option<seq<Clause>>): Option<seq<Clause>> {
    match back
    case None => None
    case Some(cs) => Some(front + cs)
  }

  lemma PrependAssociates(a: seq<Clause>, b: seq<Clause>, back: Option<seq<Clause>>)
    ensures Prepend(a, Prepend(b, back)) == Prepend(a + b, back)
    ensures Prepend([], back) == back
  {
    if back.Some? {
      assert a + (b + back.value) == a + b + back.value;
      assert [] + back.value == back.value;
    }
  }

  lemma MalformedClauseRejects(v: Json, front: seq<Clause>, cs: seq<Clause>, m: nat, rest: seq<(string, Json)>)
    requires v.JObj? && m < |cs| && !ClauseWellFormed(cs[m])
    requires WireClauses(v.entries) == Prepend(front, Prepend(cs, WireClauses(rest)))
    ensures ParsedClauses(v).None?
  {
    var all := WireClauses(v.entries);
    if all.Some? {
      assert all.value[|front| + m] == cs[m];
    }
  }
}

/** How a filter turns into composite keys, and what a bitmap hit on those keys
    means (`crates/realtime-engine/src/filter_index/mod.rs`, `mutate.rs`). */
module FilterKeys {
  import opened Wrappers
  import opened Text
  import opened Filters

  // ---------- Rendering values ----------

  function Digit(d: nat): (c: char)
    requires d < 10
    ensures '0' <= c <= '9'
  {
    '0' + d as char
  }

  function Decimal(n: nat): (s: string)
    ensures s != ""
    ensures forall i :: 0 <= i < |s| ==> '0' <= s[i] <= '9'
  {
    if n < 10 then [Digit(n)] else Decimal(n / 10) + [Digit(n % 10)]
  }

  predicate AllDigits(s: string) {
    forall i :: 0 <= i < |s| ==> '0' <= s[i] <= '9'
  }

  /** The number a string of digits is read as. */
  function ReadDigits(s: string): nat
    requires AllDigits(s)
  {
    if s == "" then 0
    else
      var last := s[|s| - 1];
      10 * ReadDigits(s[..|s| - 1]) + (last as int - '0' as int)
  }

  /** Digits without a leading zero. */
  predicate IsNumeral(s: string) {
    s != "" && AllDigits(s) && (s[0] == '0' ==> |s| == 1)
  }

  lemma {:induction false} NumeralIsPositive(s: string)
    requires IsNumeral(s) && s[0] != '0'
    ensures ReadDigits(s) >= 1
  {
    if |s| > 1 {
      NumeralIsPositive(s[..|s| - 1]);
    }
  }

  /** A number prints as the one numeral that reads back as it. */
  lemma {:induction false} DecimalExactness(n: nat, s: string)
    ensures Decimal(n) == s <==> IsNumeral(s) && ReadDigits(s) == n
  {
    DecimalReads(n);
    if IsNumeral(s) && ReadDigits(s) == n {
      NumeralPrints(s, n);
    }
  }

  lemma {:induction false} DecimalReads(n: nat)
    ensures IsNumeral(Decimal(n)) && ReadDigits(Decimal(n)) == n
    ensures n > 0 ==> Decimal(n)[0] != '0'
  {
    if n >= 10 {
      DecimalReads(n / 10);
      assert Decimal(n)[..|Decimal(n)| - 1] == Decimal(n / 10);
    }
  }

  lemma {:induction false} NumeralPrints(s: string, n: nat)
    requires IsNumeral(s) && ReadDigits(s) == n
    ensures Decimal(n) == s
  {
    if |s| > 1 {
      var front := s[..|s| - 1];
      NumeralIsPositive(front);
      NumeralPrints(front, n / 10);
      assert s == front + [s[|s| - 1]];
    }
  }

  lemma DecimalInjective(m: nat, n: nat)
    requires Decimal(m) == Decimal(n)
    ensures m == n
  {
    DecimalReads(m);
    DecimalReads(n);
  }

  function Render(v: Value): string {
    match v
    case Str(s) => s
    case Int(i) => if i < 0 then "-" + Decimal(-i) else Decimal(i)
    case Bool(b) => if b then "true" else "false"
    case Null => "null"
  }

  predicate SameKind(a: Value, b: Value) {
    (a.Str? <==> b.Str?) && (a.Int? <==> b.Int?) && (a.Bool? <==> b.Bool?)
  }

  lemma IntRendering(i: int)
    ensures Render(Int(i)) != ""
    ensures if i < 0 then Render(Int(i))[0] == '-' else '0' <= Render(Int(i))[0] <= '9'
  {
  }

  lemma IntRenderingInjective(i: int, j: int)
    requires Render(Int(i)) == Render(Int(j))
    ensures i == j
  {
    IntRendering(i);
    IntRendering(j);
    if i < 0 {
      assert Render(Int(i))[1..] == Decimal(-i) && Render(Int(j))[1..] == Decimal(-j);
      DecimalInjective(-i, -j);
    } else {
      DecimalInjective(i, j);
    }
  }

  lemma ScalarRenderingInjective(a: Value, b: Value)
    requires !a.Str? && !b.Str? && Render(a) == Render(b)
    ensures a == b
  {
    if a.Int? { IntRendering(a.i); }
    if b.Int? { IntRendering(b.i); }
    if a.Int? && b.Int? { IntRenderingInjective(a.i, b.i); }
    assert "true"[0] == 't' && "false"[0] == 'f' && "null"[0] == 'n';
  }

  /** The string spells this integer, truth value or null. */
  predicate Spells(s: string, v: Value) {
    match v
    case Str(_) => false
    case Int(i) =>
      if i < 0 then s != "" && s[0] == '-' && IsNumeral(s[1..]) && ReadDigits(s[1..]) == -i
      else IsNumeral(s) && ReadDigits(s) == i
    case Bool(b) => if b then s == "true" else s == "false"
    case Null => s == "null"
  }

  lemma RenderSpells(v: Value, s: string)
    requires !v.Str?
    ensures Render(v) == s <==> Spells(s, v)
  {
    if v.Int? {
      if v.i < 0 {
        DecimalExactness(-v.i, if s == "" then "" else s[1..]);
        assert s != "" && s[0] == '-' ==> s == "-" + s[1..];
        assert ("-" + Decimal(-v.i))[1..] == Decimal(-v.i);
      } else {
        DecimalExactness(v.i, s);
      }
    }
  }

  /** Rendering confuses two values exactly when they are equal or one is the string
      that spells the other. */
  lemma RenderingConfusion(a: Value, b: Value)
    ensures Render(a) == Render(b) <==>
            a == b || (a.Str? && Spells(a.s, b)) || (b.Str? && Spells(b.s, a))
  {
    if !a.Str? && !b.Str? && Render(a) == Render(b) {
      ScalarRenderingInjective(a, b);
    } else if a.Str? && !b.Str? {
      RenderSpells(b, a.s);
    } else if b.Str? && !a.Str? {
      RenderSpells(a, b.s);
    }
  }

  // ---------- Composite keys ----------

  const NUL: char := '\0'

  function MakeKey(pattern: string, field: string, value: string): string {
    pattern + [NUL] + field + [NUL] + value
  }

  lemma MakeKeyInjective(p: string, f: string, v: string, p': string, f': string, v': string)
    requires FreeOf(p, NUL) && FreeOf(f, NUL) && FreeOf(p', NUL) && FreeOf(f', NUL)
    requires MakeKey(p, f, v) == MakeKey(p', f', v')
    ensures p == p' && f == f' && v == v'
  {
    assert MakeKey(p, f, v) == p + [NUL] + (f + [NUL] + v);
    assert MakeKey(p', f', v') == p' + [NUL] + (f' + [NUL] + v');
    CutAtFirst(p, f + [NUL] + v, p', f' + [NUL] + v', NUL);
    CutAtFirst(f, v, f', v', NUL);
  }

  /** Without that condition two different predicates share one key. */
  lemma NulMakesKeysCollide()
    ensures MakeKey("a", "b", "c\0d") == MakeKey("a", "b\0c", "d")
  {
    assert MakeKey("a", "b", "c\0d") == "a\0b\0c\0d";
    assert MakeKey("a", "b\0c", "d") == "a\0b\0c\0d";
  }

  // ---------- What indexing a filter inserts ----------

  /** The keys pushed to the tracked list, in order and with duplicates. */
  function KeysOf(pattern: string, f: FilterExpr): seq<string> {
    match f
    case Eq(field, v) => [MakeKey(pattern, field, Render(v))]
    case In(field, vs) => ValueKeys(pattern, field, vs)
    case And(l, r) => KeysOf(pattern, l) + KeysOf(pattern, r)
    case Or(l, r) => KeysOf(pattern, l) + KeysOf(pattern, r)
    case Not(_) => []
    case Ne(_, _) => []
  }

  function ValueKeys(pattern: string, field: string, vs: seq<Value>): (ks: seq<string>)
    ensures |ks| == |vs| && forall i :: 0 <= i < |vs| ==> ks[i] == MakeKey(pattern, field, Render(vs[i]))
  {
    seq(|vs|, i requires 0 <= i < |vs| => MakeKey(pattern, field, Render(vs[i])))
  }

  /** The pre-flight estimate. */
  function CountKeys(f: FilterExpr): nat {
    match f
    case Eq(_, _) => 1
    case In(_, vs) => |vs|
    case And(l, r) => CountKeys(l) + CountKeys(r)
    case Or(l, r) => CountKeys(l) + CountKeys(r)
    case Not(_) => 0
    case Ne(_, _) => 0
  }

  lemma {:induction false} CountKeysIsExact(pattern: string, f: FilterExpr)
    ensures |KeysOf(pattern, f)| == CountKeys(f)
  {
    match f
    case And(l, r) => CountKeysIsExact(pattern, l); CountKeysIsExact(pattern, r);
    case Or(l, r) => CountKeysIsExact(pattern, l); CountKeysIsExact(pattern, r);
    case _ =>
  }

  /** Fields entered into the pattern's field list, in order. */
  function IndexedFields(f: FilterExpr): seq<string> {
    match f
    case Eq(field, _) => [field]
    case In(field, _) => [field]
    case And(l, r) => IndexedFields(l) + IndexedFields(r)
    case Or(l, r) => IndexedFields(l) + IndexedFields(r)
    case Not(_) => []
    case Ne(_, _) => []
  }

  /** Fields mentioned anywhere, as the pre-flight check collects them. */
  function FieldsOf(f: FilterExpr): set<string> {
    match f
    case Eq(field, _) => {field}
    case In(field, _) => {field}
    case Ne(field, _) => {field}
    case And(l, r) => FieldsOf(l) + FieldsOf(r)
    case Or(l, r) => FieldsOf(l) + FieldsOf(r)
    case Not(inner) => FieldsOf(inner)
  }

  function AddField(fields: seq<string>, field: string): seq<string> {
    if field in fields then fields else fields + [field]
  }

  function AddFields(fields: seq<string>, more: seq<string>): seq<string>
    decreases |more|
  {
    if more == [] then fields else AddFields(AddField(fields, more[0]), more[1..])
  }

  ghost predicate NoDuplicates<T>(s: seq<T>) {
    forall i, j :: 0 <= i < j < |s| ==> s[i] != s[j]
  }

  lemma {:induction false} AddFieldsConcat(fields: seq<string>, a: seq<string>, b: seq<string>)
    ensures AddFields(fields, a + b) == AddFields(AddFields(fields, a), b)
    decreases |a|
  {
    if a == [] {
      assert a + b == b;
    } else {
      AddFieldsConcat(AddField(fields, a[0]), a[1..], b);
      assert (a + b)[1..] == a[1..] + b;
    }
  }

  lemma {:induction false} AddFieldsMembers(fields: seq<string>, more: seq<string>)
    ensures forall x :: x in AddFields(fields, more) <==> x in fields || x in more
    ensures NoDuplicates(fields) ==> NoDuplicates(AddFields(fields, more))
    decreases |more|
  {
    if more != [] {
      AddFieldsMembers(AddField(fields, more[0]), more[1..]);
      assert more == [more[0]] + more[1..];
    }
  }

  lemma {:induction false} DistinctCount<T>(s: seq<T>)
    requires NoDuplicates(s)
    ensures |(set x | x in s)| == |s|
  {
    if s != [] {
      var rest := s[1..];
      DistinctCount(rest);
      assert (set x | x in s) == {s[0]} + (set x | x in rest);
    }
  }

  lemma {:induction false} IndexedFieldsAreMentioned(f: FilterExpr)
    ensures (set x | x in IndexedFields(f)) <= FieldsOf(f)
  {
    match f
    case And(l, r) => IndexedFieldsAreMentioned(l); IndexedFieldsAreMentioned(r);
    case Or(l, r) => IndexedFieldsAreMentioned(l); IndexedFieldsAreMentioned(r);
    case _ =>
  }

  lemma SubsetCount<T>(a: set<T>, b: set<T>)
    requires a <= b
    ensures |a| <= |b|
  {
    assert |b| == |a| + |b - a| by {
      assert b == a + (b - a);
    }
  }

  /** The indexed fields that are not listed yet. */
  function NewFields(fields: seq<string>, f: FilterExpr): set<string> {
    set x | x in IndexedFields(f) && x !in fields
  }

  /** Indexing lists exactly the new fields besides the old. */
  lemma ListedCount(fields: seq<string>, f: FilterExpr)
    requires NoDuplicates(fields)
    ensures |AddFields(fields, IndexedFields(f))| == |fields| + |NewFields(fields, f)|
  {
    hide AddFields, IndexedFields, NoDuplicates;
    var all := AddFields(fields, IndexedFields(f));
    AddFieldsMembers(fields, IndexedFields(f));
    DistinctCount(all);
    DistinctCount(fields);
    var listed := set x | x in fields;
    assert (set x | x in all) == listed + NewFields(fields, f);
    assert listed !! NewFields(fields, f);
  }

  /** The pre-flight field count never underestimates what indexing adds, and is exact
      if and only if every field the filter mentions is indexed and not listed yet. */
  lemma FieldEstimate(fields: seq<string>, f: FilterExpr)
    requires NoDuplicates(fields)
    ensures |AddFields(fields, IndexedFields(f))| <= |fields| + |FieldsOf(f)|
    ensures |AddFields(fields, IndexedFields(f))| == |fields| + |FieldsOf(f)| <==>
            forall x :: x in FieldsOf(f) ==> x !in fields && x in IndexedFields(f)
  {
    var unlisted := NewFields(fields, f);
    ListedCount(fields, f);
    IndexedFieldsAreMentioned(f);
    assert unlisted <= FieldsOf(f) by {
      assert forall x :: x in unlisted ==> x in (set y | y in IndexedFields(f));
    }
    SubsetCount(unlisted, FieldsOf(f));
    if unlisted != FieldsOf(f) {
      assert FieldsOf(f) == unlisted + (FieldsOf(f) - unlisted);
      assert |FieldsOf(f) - unlisted| > 0;
    }
  }

  /** A filter with a part that cannot be indexed puts its slot among the unfiltered. */
  predicate HasUnindexedPart(f: FilterExpr) {
    match f
    case Eq(_, _) => false
    case In(_, _) => false
    case And(l, r) => HasUnindexedPart(l) || HasUnindexedPart(r)
    case Or(l, r) => HasUnindexedPart(l) || HasUnindexedPart(r)
    case Not(_) => true
    case Ne(_, _) => true
  }

  predicate IsFilterExact(f: FilterExpr) {
    match f
    case Eq(_, _) => true
    case In(_, _) => true
    case Or(l, r) => IsFilterExact(l) && IsFilterExact(r)
    case And(_, _) => false
    case Ne(_, _) => false
    case Not(_) => false
  }

  // ---------- What the walks over a filter collect ----------

  /** `p` occurs in the filter, the whole of it included. */
  predicate IsPart(p: FilterExpr, f: FilterExpr) {
    p == f ||
    match f
    case And(l, r) => IsPart(p, l) || IsPart(p, r)
    case Or(l, r) => IsPart(p, l) || IsPart(p, r)
    case Not(inner) => IsPart(p, inner)
    case _ => false
  }

  /** `p` occurs in the filter and not inside a Not. */
  predicate IsOpenPart(p: FilterExpr, f: FilterExpr) {
    p == f ||
    match f
    case And(l, r) => IsOpenPart(p, l) || IsOpenPart(p, r)
    case Or(l, r) => IsOpenPart(p, l) || IsOpenPart(p, r)
    case _ => false
  }

  /** Exact are the filters of Eq, In and Or alone. */
  lemma {:induction false} ExactFilters(f: FilterExpr)
    ensures IsFilterExact(f) <==> forall p :: IsPart(p, f) ==> p.Eq? || p.In? || p.Or?
  {
    match f
    case Or(l, r) => ExactFilters(l); ExactFilters(r);
    case _ => assert IsPart(f, f);
  }

  /** What no bitmap covers is an Ne or a Not outside every Not. */
  lemma {:induction false} UnindexedParts(f: FilterExpr)
    ensures HasUnindexedPart(f) <==> exists p :: IsOpenPart(p, f) && (p.Ne? || p.Not?)
  {
    match f
    case And(l, r) => UnindexedParts(l); UnindexedParts(r);
    case Or(l, r) => UnindexedParts(l); UnindexedParts(r);
    case _ => assert IsOpenPart(f, f);
  }

  /** Listed are the fields of every Eq and In outside every Not. */
  lemma {:induction false} IndexedFieldsExactness(f: FilterExpr, field: string)
    ensures field in IndexedFields(f) <==> exists p :: IsOpenPart(p, f) && (p.Eq? || p.In?) && p.field == field
  {
    match f
    case And(l, r) => IndexedFieldsExactness(l, field); IndexedFieldsExactness(r, field);
    case Or(l, r) => IndexedFieldsExactness(l, field); IndexedFieldsExactness(r, field);
    case _ => assert IsOpenPart(f, f);
  }

  /** Counted are the fields of every Eq, Ne and In, wherever they stand. */
  lemma {:induction false} MentionedFieldsExactness(f: FilterExpr, field: string)
    ensures field in FieldsOf(f) <==> exists p :: IsPart(p, f) && (p.Eq? || p.Ne? || p.In?) && p.field == field
  {
    match f
    case And(l, r) => MentionedFieldsExactness(l, field); MentionedFieldsExactness(r, field);
    case Or(l, r) => MentionedFieldsExactness(l, field); MentionedFieldsExactness(r, field);
    case Not(inner) => MentionedFieldsExactness(inner, field);
    case _ => assert IsPart(f, f);
  }

  // ---------- What a hit means ----------

  predicate RenderedEqual(found: Option<Value>, v: Value) {
    found.Some? && Render(found.value) == Render(v)
  }

  /** Some key of the filter equals a key looked up for the event, or the slot is
      among the unfiltered. */
  predicate BitmapHit(f: FilterExpr, g: Getter) {
    match f
    case Eq(field, v) => RenderedEqual(g(field), v)
    case In(field, vs) => exists i :: 0 <= i < |vs| && RenderedEqual(g(field), vs[i])
    case And(l, r) => BitmapHit(l, g) || BitmapHit(r, g)
    case Or(l, r) => BitmapHit(l, g) || BitmapHit(r, g)
    case Not(_) => true
    case Ne(_, _) => true
  }

  /** No false negatives: through And, Or, Ne and Not, a filter that accepts the
      event is never missed by the bitmap. */
  lemma {:induction false} NoFalseNegatives(f: FilterExpr, g: Getter)
    requires Evaluate(f, g)
    ensures BitmapHit(f, g)
  {
    match f
    case In(field, vs) =>
      var i :| 0 <= i < |vs| && vs[i] == g(field).value;
      assert RenderedEqual(g(field), vs[i]);
    case And(l, r) => NoFalseNegatives(l, g);
    case Or(l, r) => if Evaluate(l, g) { NoFalseNegatives(l, g); } else { NoFalseNegatives(r, g); }
    case _ =>
  }

  /** The filter with every operand replaced by the string that spells it. */
  function Rendered(f: FilterExpr): FilterExpr {
    match f
    case Eq(field, v) => Eq(field, Str(Render(v)))
    case Ne(field, v) => Ne(field, Str(Render(v)))
    case In(field, vs) => In(field, seq(|vs|, i requires 0 <= i < |vs| => Str(Render(vs[i]))))
    case And(l, r) => And(Rendered(l), Rendered(r))
    case Or(l, r) => Or(Rendered(l), Rendered(r))
    case Not(inner) => Not(Rendered(inner))
  }

  function RenderedGetter(g: Getter): Getter {
    (field: string) => match g(field)
      case None => None
      case Some(v) => Some(Str(Render(v)))
  }

  /** For an exact filter, a hit is the filter itself on rendered values. */
  lemma {:induction false} ExactHitIsRenderedEvaluation(f: FilterExpr, g: Getter)
    requires IsFilterExact(f)
    ensures BitmapHit(f, g) <==> Evaluate(Rendered(f), RenderedGetter(g))
  {
    match f
    case Eq(_, _) =>
    case In(field, vs) =>
      var strings := seq(|vs|, i requires 0 <= i < |vs| => Str(Render(vs[i])));
      assert Rendered(f) == In(field, strings);
      if i :| 0 <= i < |vs| && RenderedEqual(g(field), vs[i]) {
        assert strings[i] == RenderedGetter(g)(field).value;
      }
      if g(field).Some? && Str(Render(g(field).value)) in strings {
        var i :| 0 <= i < |strings| && strings[i] == Str(Render(g(field).value));
        assert RenderedEqual(g(field), vs[i]);
      }
    case Or(l, r) => ExactHitIsRenderedEvaluation(l, g); ExactHitIsRenderedEvaluation(r, g);
  }

  /** An operand the event's value is spelled like without being equal to it. */
  predicate Misread(found: Option<Value>, v: Value) {
    found.Some? && found.value != v && Render(found.value) == Render(v)
  }

  predicate SomeOperandMisread(f: FilterExpr, g: Getter) {
    match f
    case Eq(field, v) => Misread(g(field), v)
    case In(field, vs) => exists i :: 0 <= i < |vs| && Misread(g(field), vs[i])
    case And(l, r) => SomeOperandMisread(l, g) || SomeOperandMisread(r, g)
    case Or(l, r) => SomeOperandMisread(l, g) || SomeOperandMisread(r, g)
    case Not(inner) => SomeOperandMisread(inner, g)
    case Ne(field, v) => Misread(g(field), v)
  }

  lemma {:induction false} ExactHitDecomposes(f: FilterExpr, g: Getter)
    requires IsFilterExact(f)
    ensures BitmapHit(f, g) <==> Evaluate(f, g) || SomeOperandMisread(f, g)
  {
    match f
    case Eq(_, _) =>
    case In(field, vs) =>
      if i :| 0 <= i < |vs| && RenderedEqual(g(field), vs[i]) {
        assert g(field).value == vs[i] || Misread(g(field), vs[i]);
      }
      if Evaluate(f, g) { NoFalseNegatives(f, g); }
      if i :| 0 <= i < |vs| && Misread(g(field), vs[i]) {
        assert RenderedEqual(g(field), vs[i]);
      }
    case Or(l, r) => ExactHitDecomposes(l, g); ExactHitDecomposes(r, g);
  }

  /** Every operand has the kind of the value the event holds in that field. */
  predicate OperandsOfEventKind(f: FilterExpr, g: Getter) {
    match f
    case Eq(field, v) => g(field).Some? ==> SameKind(g(field).value, v)
    case Ne(field, v) => g(field).Some? ==> SameKind(g(field).value, v)
    case In(field, vs) => forall i :: 0 <= i < |vs| ==> g(field).Some? ==> SameKind(g(field).value, vs[i])
    case And(l, r) => OperandsOfEventKind(l, g) && OperandsOfEventKind(r, g)
    case Or(l, r) => OperandsOfEventKind(l, g) && OperandsOfEventKind(r, g)
    case Not(inner) => OperandsOfEventKind(inner, g)
  }

  lemma SameKindNotMisread(found: Option<Value>, v: Value)
    requires found.Some? ==> SameKind(found.value, v)
    ensures !Misread(found, v)
  {
    if found.Some? {
      RenderingConfusion(found.value, v);
    }
  }

  lemma {:induction false} SameKindsNeverMisread(f: FilterExpr, g: Getter)
    requires OperandsOfEventKind(f, g)
    ensures !SomeOperandMisread(f, g)
  {
    match f
    case Eq(field, v) => SameKindNotMisread(g(field), v);
    case Ne(field, v) => SameKindNotMisread(g(field), v);
    case In(field, vs) =>
      forall i | 0 <= i < |vs| ensures !Misread(g(field), vs[i]) {
        SameKindNotMisread(g(field), vs[i]);
      }
    case And(l, r) => SameKindsNeverMisread(l, g); SameKindsNeverMisread(r, g);
    case Or(l, r) => SameKindsNeverMisread(l, g); SameKindsNeverMisread(r, g);
    case Not(inner) => SameKindsNeverMisread(inner, g);
  }

  // ---------- Keys against looked-up fields ----------

  /** The key looked up for one field of the event. */
  function LookupKey(pattern: string, field: string, g: Getter): Option<string> {
    match g(field)
    case None => None
    case Some(v) => Some(MakeKey(pattern, field, Render(v)))
  }

  /** `key` is among those looked up for `pattern` over `fields`. */
  predicate LookedUp(key: string, pattern: string, fields: seq<string>, g: Getter) {
    exists i :: 0 <= i < |fields| && LookupKey(pattern, fields[i], g) == Some(key)
  }

  predicate SomeKeyLookedUp(keys: seq<string>, pattern: string, fields: seq<string>, g: Getter) {
    exists j :: 0 <= j < |keys| && LookedUp(keys[j], pattern, fields, g)
  }

  lemma LookedUpKey(p: string, field: string, v: Value, fields: seq<string>, g: Getter)
    requires FreeOf(p, NUL) && AllFreeOf(fields, NUL) && field in fields
    ensures LookedUp(MakeKey(p, field, Render(v)), p, fields, g) <==> RenderedEqual(g(field), v)
  {
    var key := MakeKey(p, field, Render(v));
    var n :| 0 <= n < |fields| && fields[n] == field;
    if RenderedEqual(g(field), v) {
      assert LookupKey(p, fields[n], g) == Some(key);
    }
    if i :| 0 <= i < |fields| && LookupKey(p, fields[i], g) == Some(key) {
      assert FreeOf(fields[i], NUL) && FreeOf(fields[n], NUL);
      MakeKeyInjective(p, fields[i], Render(g(fields[i]).value), p, field, Render(v));
    }
  }

  lemma SomeKeyOfConcat(a: seq<string>, b: seq<string>, p: string, fields: seq<string>, g: Getter)
    ensures SomeKeyLookedUp(a + b, p, fields, g) <==>
            SomeKeyLookedUp(a, p, fields, g) || SomeKeyLookedUp(b, p, fields, g)
  {
    if j :| 0 <= j < |a| && LookedUp(a[j], p, fields, g) {
      assert (a + b)[j] == a[j];
    }
    if j :| 0 <= j < |b| && LookedUp(b[j], p, fields, g) {
      assert (a + b)[|a| + j] == b[j];
    }
  }

  /** The string-level lookup through injective keys is the structural hit. */
  lemma {:induction false} HitThroughKeys(p: string, f: FilterExpr, fields: seq<string>, g: Getter)
    requires FreeOf(p, NUL) && AllFreeOf(fields, NUL)
    requires forall x :: x in IndexedFields(f) ==> x in fields
    ensures HasUnindexedPart(f) || SomeKeyLookedUp(KeysOf(p, f), p, fields, g) <==> BitmapHit(f, g)
  {
    match f
    case Eq(field, v) =>
      assert field in IndexedFields(f);
      LookedUpKey(p, field, v, fields, g);
      assert KeysOf(p, f)[0] == MakeKey(p, field, Render(v));
    case In(field, vs) =>
      assert field in IndexedFields(f);
      forall i | 0 <= i < |vs|
        ensures LookedUp(KeysOf(p, f)[i], p, fields, g) <==> RenderedEqual(g(field), vs[i])
      {
        LookedUpKey(p, field, vs[i], fields, g);
      }
    case And(l, r) =>
      HitThroughKeys(p, l, fields, g);
      HitThroughKeys(p, r, fields, g);
      SomeKeyOfConcat(KeysOf(p, l), KeysOf(p, r), p, fields, g);
    case Or(l, r) =>
      HitThroughKeys(p, l, fields, g);
      HitThroughKeys(p, r, fields, g);
      SomeKeyOfConcat(KeysOf(p, l), KeysOf(p, r), p, fields, g);
    case _ =>
  }

  /** The keys of one pattern are never looked up for another. */
  lemma {:induction false} KeysStayWithTheirPattern(p: string, f: FilterExpr, p': string, fields: seq<string>,
                                                    g: Getter)
    requires FreeOf(p, NUL) && FreeOf(p', NUL) && AllFreeOf(fields, NUL) && p != p'
    requires AllFreeOf(IndexedFields(f), NUL)
    ensures !SomeKeyLookedUp(KeysOf(p, f), p', fields, g)
  {
    match f
    case Eq(field, v) =>
      assert FreeOf(IndexedFields(f)[0], NUL);
      OtherPatternsKey(p, field, v, p', fields, g);
    case In(field, vs) =>
      assert FreeOf(IndexedFields(f)[0], NUL);
      forall i | 0 <= i < |vs| ensures !LookedUp(KeysOf(p, f)[i], p', fields, g) {
        OtherPatternsKey(p, field, vs[i], p', fields, g);
      }
    case And(l, r) =>
      PartsAreFree(IndexedFields(l), IndexedFields(r));
      KeysStayWithTheirPattern(p, l, p', fields, g);
      KeysStayWithTheirPattern(p, r, p', fields, g);
      SomeKeyOfConcat(KeysOf(p, l), KeysOf(p, r), p', fields, g);
    case Or(l, r) =>
      PartsAreFree(IndexedFields(l), IndexedFields(r));
      KeysStayWithTheirPattern(p, l, p', fields, g);
      KeysStayWithTheirPattern(p, r, p', fields, g);
      SomeKeyOfConcat(KeysOf(p, l), KeysOf(p, r), p', fields, g);
    case _ =>
  }

  lemma PartsAreFree(a: seq<string>, b: seq<string>)
    requires AllFreeOf(a + b, NUL)
    ensures AllFreeOf(a, NUL) && AllFreeOf(b, NUL)
  {
    assert forall i :: 0 <= i < |a| ==> a[i] == (a + b)[i];
    assert forall i :: 0 <= i < |b| ==> b[i] == (a + b)[|a| + i];
  }

  lemma OtherPatternsKey(p: string, field: string, v: Value, p': string, fields: seq<string>, g: Getter)
    requires FreeOf(p, NUL) && FreeOf(field, NUL) && FreeOf(p', NUL) && AllFreeOf(fields, NUL) && p != p'
    ensures !LookedUp(MakeKey(p, field, Render(v)), p', fields, g)
  {
    forall i | 0 <= i < |fields|
      ensures LookupKey(p', fields[i], g) != Some(MakeKey(p, field, Render(v)))
    {
      assert FreeOf(fields[i], NUL);
      match g(fields[i])
      case None =>
      case Some(w) =>
        if MakeKey(p', fields[i], Render(w)) == MakeKey(p, field, Render(v)) {
          MakeKeyInjective(p', fields[i], Render(w), p, field, Render(v));
        }
    }
  }
}

/** Topic patterns: parsing, rendering and matching
    (`crates/realtime-core/src/types/topic_pattern.rs`, `topic_path.rs`). */
module TopicPatterns {
  import opened Wrappers
  import opened Text

  datatype TopicPattern =
    | Exact(path: string)
    | Prefix(prefix: string)
    | Glob(glob: string)

  function Parse(s: string): TopicPattern {
    if '*' in s then Glob(s)
    else if EndsWith(s, "/") then Prefix(s)
    else Exact(s)
  }

  function AsStr(p: TopicPattern): string {
    match p
    case Exact(path) => path
    case Prefix(s) => s
    case Glob(s) => s
  }

  /** Every pattern the gateway stores came out of `Parse`. */
  predicate Parsed(p: TopicPattern) {
    p == Parse(AsStr(p))
  }

  lemma EndsInSlash(s: string)
    ensures EndsWith(s, "/") <==> s != "" && s[|s| - 1] == '/'
  {
    assert s != "" ==> s[|s| - 1..] == [s[|s| - 1]];
  }

  /** The text of a pattern fixes it: parsing what a parsed pattern prints gives it back. */
  lemma ParseAsStrRoundTrip(s: string)
    ensures AsStr(Parse(s)) == s
    ensures Parsed(Parse(s))
    ensures forall t :: Parse(t) == Parse(s) ==> t == s
    ensures Parse(s).Glob? <==> '*' in s
    ensures Parse(s).Prefix? <==> '*' !in s && s != "" && s[|s| - 1] == '/'
  {
    EndsInSlash(s);
    forall t | Parse(t) == Parse(s) ensures t == s {
      assert AsStr(Parse(t)) == t;
    }
  }

  predicate Matches(p: TopicPattern, topic: string) {
    match p
    case Exact(path) => path == topic
    case Prefix(prefix) => StartsWith(topic, prefix)
    case Glob(glob) => GlobRelates(Split(glob, '/'), Split(topic, '/'))
  }

  function Namespace(topic: string): string {
    Split(topic, '/')[0]
  }

  /** What a glob means, segment by segment: `**` takes everything that is left,
      nothing included, `*` takes one segment, and any other segment takes itself. */
  predicate GlobRelates(pat: seq<string>, parts: seq<string>) {
    if pat == [] then parts == []
    else if pat[0] == "**" then true
    else parts != [] && (pat[0] == "*" || pat[0] == parts[0]) && GlobRelates(pat[1..], parts[1..])
  }

  /** The indexed loop with its early returns. */
  method GlobMatch(pattern: string, topic: string) returns (r: bool)
    ensures r == GlobRelates(Split(pattern, '/'), Split(topic, '/'))
  {
    var pat := Split(pattern, '/');
    var parts := Split(topic, '/');
    for i := 0 to |pat|
      invariant i <= |parts|
      invariant GlobRelates(pat, parts) == GlobRelates(pat[i..], parts[i..])
    {
      var p := pat[i];
      if p == "**" {
        return true;
      }
      if i >= |parts| {
        return false;
      }
      if p != "*" && p != parts[i] {
        return false;
      }
      assert pat[i..][1..] == pat[i + 1..] && parts[i..][1..] == parts[i + 1..];
    }
    return |pat| == |parts|;
  }

  /** The position of the first `**`, or the number of segments. */
  function FirstDoubleStar(pat: seq<string>): (n: nat)
    ensures n <= |pat| && (n < |pat| ==> pat[n] == "**")
    ensures forall i :: 0 <= i < n ==> pat[i] != "**"
  {
    if pat == [] || pat[0] == "**" then 0 else 1 + FirstDoubleStar(pat[1..])
  }

  /** The same relation without recursion: the segments before the first `**`
      match one by one, and without a `**` both sides have the same length. */
  lemma {:induction false} GlobClosedForm(pat: seq<string>, parts: seq<string>)
    ensures var n := FirstDoubleStar(pat);
            GlobRelates(pat, parts) <==>
            && n <= |parts|
            && (n == |pat| ==> |parts| == |pat|)
            && forall i :: 0 <= i < n ==> pat[i] == "*" || pat[i] == parts[i]
  {
    if pat != [] && pat[0] != "**" && parts != [] {
      GlobClosedForm(pat[1..], parts[1..]);
      var n := FirstDoubleStar(pat);
      assert forall i :: 1 <= i < n ==> pat[i] == pat[1..][i - 1];
      assert forall i :: 1 <= i < |parts| ==> parts[i] == parts[1..][i - 1];
      assert forall i :: 0 <= i < n - 1 && n <= |parts| ==> pat[1..][i] == pat[i + 1] && parts[1..][i] == parts[i + 1];
    }
  }

  predicate HasWildcardSegment(pattern: string) {
    var pat := Split(pattern, '/');
    "*" in pat || "**" in pat
  }

  /** A glob whose stars never fill a whole segment matches only itself. */
  lemma LiteralGlobMatchesOnlyItself(pattern: string, topic: string)
    requires !HasWildcardSegment(pattern)
    ensures Matches(Glob(pattern), topic) <==> topic == pattern
  {
    var pat, parts := Split(pattern, '/'), Split(topic, '/');
    GlobClosedForm(pat, parts);
    JoinSplit(pattern, '/');
    JoinSplit(topic, '/');
    var n := FirstDoubleStar(pat);
    assert n == |pat|;
    assert forall i :: 0 <= i < |pat| ==> pat[i] in pat;
    if Matches(Glob(pattern), topic) {
      assert pat == parts;
    }
  }

  /** What a text without a star matches once parsed: what it starts, if it ends in a slash,
      and otherwise itself. */
  lemma PlainTextMatches(s: string, topic: string)
    requires '*' !in s
    ensures Matches(Parse(s), topic) <==>
            if s != "" && s[|s| - 1] == '/' then |s| <= |topic| && topic[..|s|] == s else topic == s
  {
    hide EndsWith;
    EndsInSlash(s);
  }

  /** What a text with a star matches once parsed, segment by segment up to its first `**`. */
  lemma StarTextMatches(s: string, topic: string)
    requires '*' in s
    ensures var pat, parts := Split(s, '/'), Split(topic, '/');
            var n := FirstDoubleStar(pat);
            Matches(Parse(s), topic) <==>
            && n <= |parts|
            && (n == |pat| ==> |parts| == |pat|)
            && forall i :: 0 <= i < n ==> pat[i] == "*" || pat[i] == parts[i]
  {
    hide GlobRelates, FirstDoubleStar;
    GlobClosedForm(Split(s, '/'), Split(topic, '/'));
  }

  // ---------- Topics that match ----------

  /** Segments a glob's segments match, with `filler` wherever a wildcard stands. */
  function FillIn(pat: seq<string>, filler: string): (parts: seq<string>)
    ensures pat != [] ==> parts != []
  {
    if pat == [] then []
    else if pat[0] == "**" then [filler]
    else [if pat[0] == "*" then filler else pat[0]] + FillIn(pat[1..], filler)
  }

  lemma {:induction false} FillInMatches(pat: seq<string>, filler: string)
    requires AllFreeOf(pat, '/') && FreeOf(filler, '/')
    ensures GlobRelates(pat, FillIn(pat, filler)) && AllFreeOf(FillIn(pat, filler), '/')
    ensures "*" in pat || "**" in pat ==> filler in FillIn(pat, filler)
  {
    if pat != [] && pat[0] != "**" {
      FillInMatches(pat[1..], filler);
      assert FreeOf(pat[0], '/');
      assert pat == [pat[0]] + pat[1..];
      assert FillIn(pat, filler)[1..] == FillIn(pat[1..], filler);
    }
  }

  /** The one topic a pattern matches, unless it matches ever longer ones. */
  function OnlyTopic(p: TopicPattern): Option<string> {
    match p
    case Exact(path) => Some(path)
    case Prefix(_) => None
    case Glob(glob) => if HasWildcardSegment(glob) then None else Some(glob)
  }

  lemma OnlyTopicMatches(p: TopicPattern, topic: string)
    requires OnlyTopic(p).Some?
    ensures Matches(p, topic) <==> topic == OnlyTopic(p).value
  {
    if p.Glob? {
      LiteralGlobMatchesOnlyItself(p.glob, topic);
    }
  }

  lemma LongTopic(p: TopicPattern, n: nat) returns (topic: string)
    requires OnlyTopic(p).None?
    ensures Matches(p, topic) && |topic| > n
  {
    var filler := Repeat('x', n + 1);
    assert FreeOf(filler, '/');
    if p.Prefix? {
      topic := p.prefix + filler;
      assert topic[..|p.prefix|] == p.prefix;
    } else {
      var pat := Split(p.glob, '/');
      SplitPiecesAreFree(p.glob, '/');
      FillInMatches(pat, filler);
      topic := Join(FillIn(pat, filler), '/');
      SplitJoin(FillIn(pat, filler), '/');
      JoinIsLonger(FillIn(pat, filler), '/', filler);
    }
  }

  /** Every pattern matches some topic. */
  lemma SomeTopic(p: TopicPattern) returns (topic: string)
    ensures Matches(p, topic)
  {
    if OnlyTopic(p).Some? {
      topic := OnlyTopic(p).value;
      OnlyTopicMatches(p, topic);
    } else {
      topic := LongTopic(p, 0);
    }
  }
}

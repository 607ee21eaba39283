/** Namespace authorisation of subscriptions
    (`crates/realtime-core/src/types/auth_claims.rs`). */
module AuthClaims {
  import opened Text
  import opened TopicPatterns

  datatype Claims = Claims(namespaces: seq<string>, canSubscribe: bool)

  predicate IsProtected(ns: string, guarded: seq<string>) {
    exists i :: 0 <= i < |guarded| && guarded[i] != "" && StartsWith(ns, guarded[i])
  }

  /** An exact grant always wins; `*` grants whatever is not protected. */
  predicate NamespaceAllowed(c: Claims, ns: string, guarded: seq<string>) {
    exists i :: 0 <= i < |c.namespaces| &&
      (c.namespaces[i] == ns || (c.namespaces[i] == "*" && !IsProtected(ns, guarded)))
  }

  function PatternNamespace(p: TopicPattern): string {
    match p
    case Exact(path) => Namespace(path)
    case Prefix(prefix) => Split(prefix, '/')[0]
    case Glob(glob) => if glob == "**" then "*" else Split(glob, '/')[0]
  }

  predicate CanSubscribeToScoped(c: Claims, p: TopicPattern, guarded: seq<string>) {
    c.canSubscribe && c.namespaces != [] && NamespaceAllowed(c, PatternNamespace(p), guarded)
  }

  /** `ns` is the text before the first slash, all of it where there is none. */
  ghost predicate IsFirstSegment(text: string, ns: string) {
    FreeOf(ns, '/') && (text == ns || (|ns| < |text| && text[..|ns|] == ns && text[|ns|] == '/'))
  }

  lemma FirstSegmentExactness(text: string, ns: string)
    ensures IsFirstSegment(text, ns) <==> Split(text, '/')[0] == ns
  {
    var head := Split(text, '/')[0];
    SplitPiecesAreFree(text, '/');
    assert FreeOf(head, '/');
    JoinSplit(text, '/');
    if IsFirstSegment(text, ns) {
      if text == ns {
        SplitPrepend(ns, "", '/');
      } else {
        assert text == ns + ['/'] + text[|ns| + 1..];
        SplitPrepend(ns, text[|ns| + 1..], '/');
      }
    }
  }

  /** Acceptance, exactly, on the text subscribed to: the claims may subscribe at all, and
      grant its first segment by name, or by `*` while no protected prefix starts it. The
      text `**` asks for the namespace `*`. */
  lemma AcceptanceExactness(c: Claims, text: string, guarded: seq<string>, ns: string)
    requires if text == "**" then ns == "*" else IsFirstSegment(text, ns)
    ensures CanSubscribeToScoped(c, Parse(text), guarded) <==>
            c.canSubscribe && (ns in c.namespaces ||
                               ("*" in c.namespaces &&
                                forall g :: g in guarded && g != "" ==> !(|g| <= |ns| && ns[..|g|] == g)))
  {
    if text != "**" {
      FirstSegmentExactness(text, ns);
    }
    assert PatternNamespace(Parse(text)) == ns;
    if ns in c.namespaces {
      var i :| 0 <= i < |c.namespaces| && c.namespaces[i] == ns;
    }
    if "*" in c.namespaces {
      var i :| 0 <= i < |c.namespaces| && c.namespaces[i] == "*";
    }
    if g :| g in guarded && g != "" && StartsWith(ns, g) {
      var i :| 0 <= i < |guarded| && guarded[i] == g;
      assert IsProtected(ns, guarded);
    }
  }

  /** The namespace of a topic is the text before its first slash. */
  lemma NamespaceExactness(topic: string, ns: string)
    ensures Namespace(topic) == ns <==> IsFirstSegment(topic, ns)
  {
    FirstSegmentExactness(topic, ns);
  }

  /** The first segment names one namespace: it is neither `*` nor `**`. */
  predicate FirstSegmentLiteral(p: TopicPattern) {
    p.Glob? ==> Split(p.glob, '/')[0] != "*" && Split(p.glob, '/')[0] != "**"
  }

  /** Some namespace starts with this protected prefix: it is not empty and does
      not reach past the first segment. */
  predicate ShieldsSomething(guarded: seq<string>) {
    exists i :: 0 <= i < |guarded| && guarded[i] != "" && '/' !in guarded[i]
  }

  /** Every topic the pattern matches lies in a namespace the claims grant. */
  ghost predicate StaysInsideGrant(c: Claims, p: TopicPattern, guarded: seq<string>) {
    forall topic :: Matches(p, topic) ==> NamespaceAllowed(c, Namespace(topic), guarded)
  }

  lemma PrefixKeepsFirstSegment(prefix: string, topic: string)
    requires EndsWith(prefix, "/") && StartsWith(topic, prefix)
    ensures Namespace(topic) == Split(prefix, '/')[0]
  {
    var head := Split(prefix, '/')[0];
    JoinSplit(prefix, '/');
    SplitPiecesAreFree(prefix, '/');
    assert FreeOf(head, '/');
    assert prefix[|prefix| - 1] == "/"[0];
    assert prefix != head;
    var rest := prefix[|head| + 1..];
    assert prefix == head + "/" + rest;
    var tail := rest + topic[|prefix|..];
    assert topic == prefix + topic[|prefix|..];
    assert topic == head + "/" + tail;
    SplitPrepend(head, tail, '/');
  }

  lemma LiteralPatternFixesNamespace(p: TopicPattern, topic: string)
    requires Parsed(p) && FirstSegmentLiteral(p) && Matches(p, topic)
    ensures Namespace(topic) == PatternNamespace(p)
  {
    match p
    case Exact(_) =>
    case Prefix(prefix) => PrefixKeepsFirstSegment(prefix, topic);
    case Glob(glob) => if glob == "**" { SplitPrepend("**", "", '/'); }
  }

  /** A pattern with a wildcard first segment matches a topic in any namespace. */
  lemma WildcardReachesEveryNamespace(p: TopicPattern, ns: string) returns (topic: string)
    requires !FirstSegmentLiteral(p) && FreeOf(ns, '/')
    ensures Matches(p, topic) && Namespace(topic) == ns
  {
    var pat := Split(p.glob, '/');
    SplitPiecesAreFree(p.glob, '/');
    FillInMatches(pat[1..], "x");
    var parts := [ns] + FillIn(pat[1..], "x");
    topic := Join(parts, '/');
    SplitJoin(parts, '/');
    assert parts[1..] == FillIn(pat[1..], "x");
  }

  /** A namespace under `stem` that no grant names. */
  lemma UngrantedNamespace(c: Claims, stem: string) returns (ns: string)
    requires FreeOf(stem, '/')
    ensures FreeOf(ns, '/') && StartsWith(ns, stem) && ns !in c.namespaces
  {
    ns := stem + Repeat('a', LongestLength(c.namespaces) + 1);
    assert ns[..|stem|] == stem;
  }

  /** Containment, exactly: an accepted pattern stays inside its grant if and only
      if its first segment is literal, or the claims hold `*` and nothing is
      effectively protected. */
  lemma AcceptedPatternContained(c: Claims, p: TopicPattern, guarded: seq<string>)
    requires Parsed(p) && CanSubscribeToScoped(c, p, guarded)
    ensures StaysInsideGrant(c, p, guarded) <==>
            FirstSegmentLiteral(p) || ("*" in c.namespaces && !ShieldsSomething(guarded))
  {
    if FirstSegmentLiteral(p) {
      forall topic | Matches(p, topic) ensures NamespaceAllowed(c, Namespace(topic), guarded) {
        LiteralPatternFixesNamespace(p, topic);
      }
    } else if "*" in c.namespaces && !ShieldsSomething(guarded) {
      forall topic | Matches(p, topic) ensures NamespaceAllowed(c, Namespace(topic), guarded) {
        UnshieldedWildcardGrants(c, topic, guarded);
      }
    } else {
      var stem := "";
      if ShieldsSomething(guarded) {
        var i :| 0 <= i < |guarded| && guarded[i] != "" && '/' !in guarded[i];
        stem := guarded[i];
      }
      var ns := UngrantedNamespace(c, stem);
      if ShieldsSomething(guarded) {
        assert IsProtected(ns, guarded);
      }
      var topic := WildcardReachesEveryNamespace(p, ns);
      assert !NamespaceAllowed(c, Namespace(topic), guarded);
    }
  }

  lemma UnshieldedWildcardGrants(c: Claims, topic: string, guarded: seq<string>)
    requires "*" in c.namespaces && !ShieldsSomething(guarded)
    ensures NamespaceAllowed(c, Namespace(topic), guarded)
  {
    var ns := Namespace(topic);
    SplitPiecesAreFree(topic, '/');
    assert FreeOf(ns, '/');
    forall i | 0 <= i < |guarded| && StartsWith(ns, guarded[i])
      ensures '/' !in guarded[i]
    {
      PrefixIsFree(ns, guarded[i], '/');
    }
    var k :| 0 <= k < |c.namespaces| && c.namespaces[k] == "*";
  }

  lemma StarMatchesOneSegment(ns: string, room: string)
    requires FreeOf(ns, '/') && FreeOf(room, '/')
    ensures Split("*/" + room, '/') == ["*", room]
    ensures Namespace(ns + "/" + room) == ns
    ensures Matches(Glob("*/" + room), ns + "/" + room)
  {
    SplitPrepend("*", room, '/');
    SplitPrepend(ns, room, '/');
    SplitPrepend(room, "", '/');
    assert "*/" + room == "*" + "/" + room;
    assert GlobRelates([room], [room]);
    assert ["*", room][1..] == [room] && [ns, room][1..] == [room];
  }

  // The scoped rule is not kept by wildcards: a grant of "*" lets "*/x" through
  // although it reaches a protected space the claims do not name.
  lemma WildcardEscapesProtection()
    ensures var c := Claims(["*"], true);
            var guarded := ["collab:"];
            && CanSubscribeToScoped(c, Glob("*/" + "x"), guarded)
            && Matches(Glob("*/" + "x"), "collab:1" + "/" + "x")
            && !NamespaceAllowed(c, Namespace("collab:1" + "/" + "x"), guarded)
  {
    var c := Claims(["*"], true);
    var guarded := ["collab:"];
    StarMatchesOneSegment("collab:1", "x");
    assert c.namespaces[0] == "*";
    assert guarded[0] != "" && StartsWith("collab:1", guarded[0]);
  }
}

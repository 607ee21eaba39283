/** Splitting and joining strings on a separator, as `str::split` and string
    formatting do. */
module Text {

  /** The pieces of `s` between occurrences of `sep`; there is always at least one. */
  function Split(s: string, sep: char): (parts: seq<string>)
    ensures |parts| >= 1
  {
    if s == "" then [""]
    else if s[0] == sep then [""] + Split(s[1..], sep)
    else
      var rest := Split(s[1..], sep);
      [[s[0]] + rest[0]] + rest[1..]
  }

  function Join(parts: seq<string>, sep: char): string
    requires |parts| >= 1
  {
    if |parts| == 1 then parts[0] else parts[0] + [sep] + Join(parts[1..], sep)
  }

  ghost predicate FreeOf(s: string, c: char) {
    c !in s
  }

  ghost predicate AllFreeOf(parts: seq<string>, c: char) {
    forall i :: 0 <= i < |parts| ==> FreeOf(parts[i], c)
  }

  lemma {:induction false} SplitPiecesAreFree(s: string, sep: char)
    ensures AllFreeOf(Split(s, sep), sep)
  {
    if s != "" {
      SplitPiecesAreFree(s[1..], sep);
    }
  }

  lemma {:induction false} JoinSplit(s: string, sep: char)
    ensures Join(Split(s, sep), sep) == s
  {
    if s != "" {
      JoinSplit(s[1..], sep);
      var rest := Split(s[1..], sep);
      if s[0] == sep {
        assert ([""] + rest)[1..] == rest;
      } else {
        var parts := [[s[0]] + rest[0]] + rest[1..];
        assert parts[1..] == rest[1..];
        if |rest| > 1 {
          assert [s[0]] + rest[0] + [sep] + Join(rest[1..], sep)
              == [s[0]] + (rest[0] + [sep] + Join(rest[1..], sep));
        }
      }
    }
  }

  /** A piece without separators, read back from the front of a string. */
  lemma {:induction false} SplitPrepend(piece: string, tail: string, sep: char)
    requires FreeOf(piece, sep)
    ensures Split(piece + [sep] + tail, sep) == [piece] + Split(tail, sep)
    ensures Split(piece, sep) == [piece]
  {
    var s := piece + [sep] + tail;
    if piece == "" {
      assert s[1..] == tail;
    } else {
      SplitPrepend(piece[1..], tail, sep);
      assert s[1..] == piece[1..] + [sep] + tail;
      assert [piece[0]] + piece[1..] == piece;
      assert s[0] == piece[0] != sep;
    }
  }

  lemma {:induction false} SplitJoin(parts: seq<string>, sep: char)
    requires |parts| >= 1 && AllFreeOf(parts, sep)
    ensures Split(Join(parts, sep), sep) == parts
  {
    assert FreeOf(parts[0], sep);
    if |parts| == 1 {
      SplitPrepend(parts[0], "", sep);
    } else {
      SplitPrepend(parts[0], Join(parts[1..], sep), sep);
      SplitJoin(parts[1..], sep);
    }
  }

  lemma {:induction false} JoinIsLonger(parts: seq<string>, sep: char, part: string)
    requires part in parts
    ensures |Join(parts, sep)| >= |part|
  {
    assert parts == [parts[0]] + parts[1..];
    if |parts| > 1 && part != parts[0] {
      JoinIsLonger(parts[1..], sep, part);
    }
  }

  predicate StartsWith(s: string, prefix: string) {
    |prefix| <= |s| && s[..|prefix|] == prefix
  }

  predicate EndsWith(s: string, suffix: string) {
    |suffix| <= |s| && s[|s| - |suffix|..] == suffix
  }

  lemma PrefixIsFree(s: string, prefix: string, c: char)
    requires FreeOf(s, c) && StartsWith(s, prefix)
    ensures FreeOf(prefix, c)
  {
    forall j | 0 <= j < |prefix| ensures prefix[j] != c {
      assert prefix[j] == s[j] && s[j] in s;
    }
  }

  /** Two strings cut at the first separator agree on both sides of it. */
  lemma {:induction false} CutAtFirst(a: string, x: string, b: string, y: string, sep: char)
    requires FreeOf(a, sep) && FreeOf(b, sep)
    requires a + [sep] + x == b + [sep] + y
    ensures a == b && x == y
  {
    var whole := a + [sep] + x;
    FirstSeparatorAt(a, x, sep);
    FirstSeparatorAt(b, y, sep);
    assert |a| == |b|;
    assert a == whole[..|a|] && b == (b + [sep] + y)[..|a|];
    assert x == whole[|a| + 1..] && y == (b + [sep] + y)[|a| + 1..];
  }

  lemma FirstSeparatorAt(a: string, x: string, sep: char)
    requires FreeOf(a, sep)
    ensures forall i :: 0 <= i < |a| ==> (a + [sep] + x)[i] != sep
    ensures (a + [sep] + x)[|a|] == sep
  {
    forall i | 0 <= i < |a| ensures (a + [sep] + x)[i] != sep {
      assert (a + [sep] + x)[i] == a[i] && a[i] in a;
    }
  }

  /** `n` copies of `c`. */
  function Repeat(c: char, n: nat): (s: string)
    ensures |s| == n && forall i :: 0 <= i < n ==> s[i] == c
  {
    seq(n, _ => c)
  }

  /** A string longer than every member of a list is not in that list. */
  function LongestLength(items: seq<string>): (n: nat)
    ensures forall i :: 0 <= i < |items| ==> |items[i]| <= n
  {
    if items == [] then 0
    else
      var rest := LongestLength(items[1..]);
      assert forall i :: 1 <= i < |items| ==> items[i] == items[1..][i - 1];
      if |items[0]| > rest then |items[0]| else rest
  }
}

/** IRC nicknames derived from platform identities
    (`crates/realtime-bus-irc/src/identity.rs`). */
module Nicknames {
  import opened Irc

  // ---------- Base 36 ----------

  const ALPHABET := "0123456789abcdefghijklmnopqrstuvwxyz"

  function Pow36(len: nat): (p: nat)
    ensures p >= 1
  {
    if len == 0 then 1 else 36 * Pow36(len - 1)
  }

  /** The value of a digit, read independently of the alphabet's order. */
  function DigitValue(c: char): nat {
    if '0' <= c <= '9' then (c - '0') as int
    else if 'a' <= c <= 'z' then (c - 'a') as int + 10
    else 0
  }

  function ReadBack(s: seq<char>): nat {
    if s == [] then 0 else ReadBack(s[..|s| - 1]) * 36 + DigitValue(s[|s| - 1])
  }

  predicate IsDigit36(c: char) {
    '0' <= c <= '9' || 'a' <= c <= 'z'
  }

  lemma AlphabetReadsBack(d: nat)
    requires d < 36
    ensures IsDigit36(ALPHABET[d]) && DigitValue(ALPHABET[d]) == d
  {
    if d < 10 {
      assert ALPHABET[..10] == "0123456789";
      assert ALPHABET[d] == '0' + d as char;
    } else {
      assert ALPHABET[10..] == "abcdefghijklmnopqrstuvwxyz";
      assert ALPHABET[d] == 'a' + (d - 10) as char;
    }
  }

  /** The last `len` base-36 digits of `n`. */
  function Digits(n: nat, len: nat): (s: seq<char>)
    ensures |s| == len
  {
    if len == 0 then [] else Digits(n / 36, len - 1) + [ALPHABET[n % 36]]
  }

  lemma Regroup(a: nat, b: nat, k: nat, m: nat, r: nat)
    ensures a * (b * k + m) + r == (a * b) * k + (a * m + r)
  {
    assert a * (b * k + m) == a * (b * k) + a * m;
    assert a * (b * k) == (a * b) * k;
  }

  lemma RestIsSmall(a: nat, b: nat, m: nat, r: nat)
    requires m < b && r < a
    ensures a * m + r < a * b
  {
    assert a * m <= a * (b - 1);
    assert a * (b - 1) == a * b - a;
  }

  lemma DivisionEquation(n: nat, d: nat)
    requires d >= 1
    ensures n == d * (n / d) + n % d && n % d < d
  {
  }

  lemma ModSplit(n: nat, a: nat, b: nat)
    requires a >= 1 && b >= 1
    ensures a * b >= 1 && n % (a * b) == a * ((n / a) % b) + n % a
  {
    var q, r := n / a, n % a;
    DivisionEquation(n, a);
    DivisionEquation(q, b);
    Regroup(a, b, q / b, q % b, r);
    RestIsSmall(a, b, q % b, r);
    QuotientIsUnique(n, a * b, q / b, a * (q % b) + r);
  }

  lemma QuotientIsUnique(n: nat, d: nat, k: nat, r: nat)
    requires d >= 1 && n == d * k + r && r < d
    ensures n % d == r
  {
    var x := n / d - k;
    assert n == d * (n / d) + n % d;
    assert d * x == d * (n / d) - d * k;
    MultipleIsZeroOrLarge(d, x);
  }

  lemma MultipleIsZeroOrLarge(d: nat, x: int)
    ensures x == 0 || d * x >= d || d * x + d <= 0
  {
    if x >= 1 {
      assert d * x == d * (x - 1) + d;
    } else if x <= -1 {
      assert d * x == d * (x + 1) - d;
    }
  }

  lemma {:induction false} DigitsReadBack(n: nat, len: nat)
    ensures ReadBack(Digits(n, len)) == n % Pow36(len)
    ensures forall i :: 0 <= i < len ==> IsDigit36(Digits(n, len)[i])
  {
    if len > 0 {
      DigitsReadBack(n / 36, len - 1);
      AlphabetReadsBack(n % 36);
      ModSplit(n, 36, Pow36(len - 1));
      assert Digits(n, len)[..len - 1] == Digits(n / 36, len - 1);
    }
  }

  /** Fills the slots from the last to the first: the number modulo 36^len, read back. */
  method Base36(number: nat, len: nat) returns (out: seq<char>)
    ensures out == Digits(number, len)
    ensures |out| == len && ReadBack(out) == number % Pow36(len)
    ensures forall i :: 0 <= i < len ==> IsDigit36(out[i])
  {
    var slots := new char[len](_ => '0');
    var n := number;
    var slot := len;
    while slot > 0
      invariant 0 <= slot <= len
      invariant Digits(number, len) == Digits(n, slot) + slots[slot..]
    {
      slot := slot - 1;
      ghost var done := slots[slot + 1..];
      slots[slot] := ALPHABET[n % 36];
      assert slots[slot..] == [ALPHABET[n % 36]] + done;
      n := n / 36;
    }
    out := slots[..];
    assert Digits(number, len) == out;
    DigitsReadBack(number, len);
  }

  // ---------- Nicknames ----------

  predicate IsSpecial(c: char) {
    c in {'[', ']', '\\', '`', '_', '^', '{', '|', '}'}
  }

  predicate IsNickStart(c: char) {
    IsLetter(c) || IsSpecial(c)
  }

  predicate IsNickChar(c: char) {
    IsLetter(c) || '0' <= c <= '9' || c == '-' || IsSpecial(c)
  }

  /** The rules of section 2.3.1 of RFC 2812, in its own terms: letter is A-Z or a-z,
      special is %x5B-60 or %x7B-7D. */
  predicate IsRfcSpecial(c: char) {
    0x5B <= c as int <= 0x60 || 0x7B <= c as int <= 0x7D
  }

  predicate IsRfcLetter(c: char) {
    0x41 <= c as int <= 0x5A || 0x61 <= c as int <= 0x7A
  }

  predicate IsRfcNickname(nick: string) {
    && nick != ""
    && (IsRfcLetter(nick[0]) || IsRfcSpecial(nick[0]))
    && forall i :: 0 <= i < |nick| ==>
         IsRfcLetter(nick[i]) || 0x30 <= nick[i] as int <= 0x39 || IsRfcSpecial(nick[i]) || nick[i] == '-'
  }

  /** The code's letters, digits and list of special characters are the RFC's ranges. */
  lemma ClassesAreTheRfcs(c: char)
    ensures IsSpecial(c) <==> IsRfcSpecial(c)
    ensures IsLetter(c) <==> IsRfcLetter(c)
    ensures '0' <= c <= '9' <==> 0x30 <= c as int <= 0x39
  {
    assert 'A' as int == 0x41 && 'Z' as int == 0x5A && 'a' as int == 0x61 && 'z' as int == 0x7A;
    assert '0' as int == 0x30 && '9' as int == 0x39;
    assert '[' as int == 0x5B && '\\' as int == 0x5C && ']' as int == 0x5D && '^' as int == 0x5E && '_' as int == 0x5F
           && '`' as int == 0x60;
    assert '{' as int == 0x7B && '|' as int == 0x7C && '}' as int == 0x7D;
  }

  /** The nick-legal characters of a string, in order. */
  function NickChars(s: string): string {
    if s == "" then "" else (if IsNickChar(s[0]) then [s[0]] else []) + NickChars(s[1..])
  }

  predicate Legal(s: string) {
    forall i :: 0 <= i < |s| ==> IsNickChar(s[i])
  }

  lemma {:induction false} NickCharsAreLegal(s: string)
    ensures Legal(NickChars(s))
  {
    if s != "" {
      NickCharsAreLegal(s[1..]);
    }
  }

  /** Exactly the legal characters are kept, in place: piece by piece, a legal one as it is
      and any other not at all. */
  lemma {:induction false} NickCharsExactness(a: string, b: string, c: char)
    ensures NickChars(a + b) == NickChars(a) + NickChars(b)
    ensures NickChars([c]) == if IsNickChar(c) then [c] else ""
    ensures NickChars("") == ""
  {
    assert [c][1..] == "";
    if a == "" {
      assert a + b == b;
    } else {
      assert (a + b)[1..] == a[1..] + b;
      NickCharsExactness(a[1..], b, c);
    }
  }

  function Take(s: string, n: nat): string {
    if n <= |s| then s[..n] else s
  }

  predicate IsBlank(s: string) {
    forall i :: 0 <= i < |s| ==> IsWhitespace(s[i])
  }

  function SuffixLength(max: nat): nat {
    if max <= 1 then 0 else if max <= 3 then 1 else 3
  }

  lemma SuffixIsLegal(hash: nat, len: nat)
    ensures Legal(Digits(hash, len))
  {
    DigitsReadBack(hash, len);
  }

  lemma LegalPieces(a: string, b: string, n: nat)
    requires Legal(a) && Legal(b)
    ensures Legal(a + b) && Legal(Take(a, n)) && |Take(a, n)| <= n
    ensures n > 0 && a != "" ==> Take(a, n) != "" && Take(a, n)[0] == a[0]
  {
  }

  /** The code's rules for a nickname are those of the RFC. */
  lemma LegalIsRfc(nick: string)
    ensures IsRfcNickname(nick) <==> nick != "" && IsNickStart(nick[0]) && Legal(nick)
  {
    hide IsSpecial, IsRfcSpecial, IsLetter, IsRfcLetter;
    forall i | 0 <= i < |nick|
      ensures IsSpecial(nick[i]) <==> IsRfcSpecial(nick[i])
      ensures IsLetter(nick[i]) <==> IsRfcLetter(nick[i])
      ensures '0' <= nick[i] <= '9' <==> 0x30 <= nick[i] as int <= 0x39
    {
      ClassesAreTheRfcs(nick[i]);
    }
  }

  /** The nickname for a user whose id hashes to `hash`. */
  method ToIrcNick(userId: string, handle: string, maxLen: nat, hash: nat) returns (nick: string)
    ensures IsRfcNickname(nick)
    ensures |nick| <= if maxLen > 1 then maxLen else 1
    ensures var max := if maxLen > 1 then maxLen else 1;
            var tail := if max <= 1 then 0 else if max <= 3 then 1 else 3;
            var body := NickChars(if forall i :: 0 <= i < |handle| ==> IsWhitespace(handle[i]) then userId else handle);
            var full := (if |body| >= max - tail then body[..max - tail] else body) + Digits(hash, tail);
            nick == if full == "" then "u" else if IsNickStart(full[0]) then full
                    else if |full| >= max then "u" + full[..max - 1] else "u" + full
  {
    hide Legal, IsNickStart, IsNickChar, NickChars, IsRfcNickname, Digits, IsWhitespace;
    var max := if maxLen > 1 then maxLen else 1;
    var suffixLength := SuffixLength(max);
    var suffix := Base36(hash, suffixLength);
    var base := if IsBlank(handle) then userId else handle;
    NickCharsAreLegal(base);
    SuffixIsLegal(hash, suffixLength);
    var prefix := Take(NickChars(base), max - suffixLength);
    LegalPieces(NickChars(base), suffix, max - suffixLength);
    LegalPieces(prefix, suffix, max);
    nick := prefix + suffix;
    UserIsLegal();
    if nick == "" {
      LegalPieces("user", "", max);
      EmptyOnlyAtOne(NickChars(base), hash, max);
      nick := Take("user", max);
    }
    if !IsNickStart(nick[0]) {
      LegalPieces("u", nick, max);
      LegalPieces("u" + nick, "", max);
      nick := Take("u" + nick, max);
    }
    LegalIsRfc(nick);
  }

  /** Only a limit of one leaves no room for the suffix. */
  lemma EmptyOnlyAtOne(body: string, hash: nat, max: nat)
    requires max >= 1 && Take(body, max - SuffixLength(max)) + Digits(hash, SuffixLength(max)) == ""
    ensures max == 1 && Take("user", max) == "u"
  {
    assert |Digits(hash, SuffixLength(max))| == 0;
  }

  lemma UserIsLegal()
    ensures Legal("user") && Legal("u") && Legal("") && IsNickStart('u')
  {
  }
}

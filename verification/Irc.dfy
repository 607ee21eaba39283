/** The IRC bridge: lines, channels and nicknames
    (`crates/realtime-bus-irc/src/client.rs`, `mapping.rs`, `identity.rs`). */
module Irc {
  import opened Wrappers
  import opened Text

  // ---------- Scanning ----------

  /** The characters with the Unicode property White_Space. */
  predicate IsWhitespace(c: char) {
    || '\t' <= c <= '\r' || c == ' ' || c == '\U{85}' || c == '\U{A0}' || c == '\U{1680}'
    || '\U{2000}' <= c <= '\U{200A}' || c == '\U{2028}' || c == '\U{2029}' || c == '\U{202F}' || c == '\U{205F}'
        || c == '\U{3000}'
  }

  /** The property's code points. */
  lemma WhitespaceIsUnicodes(c: char)
    ensures IsWhitespace(c) <==>
            || 9 <= c as int <= 13 || c as int == 32 || c as int == 0x85 || c as int == 0xA0
            || c as int == 0x1680 || 0x2000 <= c as int <= 0x200A || c as int == 0x2028 || c as int == 0x2029
            || c as int == 0x202F || c as int == 0x205F || c as int == 0x3000
  {
    assert '\t' as int == 9 && '\r' as int == 13 && ' ' as int == 32;
  }

  predicate IsLetter(c: char) {
    'a' <= c <= 'z' || 'A' <= c <= 'Z'
  }

  predicate NoWhitespace(s: string) {
    forall i :: 0 <= i < |s| ==> !IsWhitespace(s[i])
  }

  /** The first place where `pattern` occurs. */
  function Find(s: string, pattern: string): (r: Option<nat>)
    requires pattern != ""
    ensures r.Some? ==> r.value + |pattern| <= |s| && StartsWith(s[r.value..], pattern)
    ensures forall i :: 0 <= i < (if r.Some? then r.value else |s|) ==> !StartsWith(s[i..], pattern)
  {
    assert s[0..] == s;
    if StartsWith(s, pattern) then Some(0)
    else if s == "" then None
    else
      assert forall i :: 1 <= i <= |s| ==> s[1..][i - 1..] == s[i..];
      match Find(s[1..], pattern)
      case None => None
      case Some(i) => Some(i + 1)
  }

  function TrimStart(s: string): string {
    if s != "" && IsWhitespace(s[0]) then TrimStart(s[1..]) else s
  }

  /** The length of the word a string starts with. */
  function WordLength(s: string): (n: nat)
    ensures n <= |s|
  {
    if s == "" || IsWhitespace(s[0]) then 0 else WordLength(s[1..]) + 1
  }

  function SplitWhitespace(s: string): seq<string>
    decreases |s|
  {
    if s == "" then []
    else if IsWhitespace(s[0]) then SplitWhitespace(s[1..])
    else [s[..WordLength(s)]] + SplitWhitespace(s[WordLength(s)..])
  }

  lemma {:induction false} WordLengthOf(word: string, tail: string)
    requires NoWhitespace(word) && (tail == "" || IsWhitespace(tail[0]))
    ensures WordLength(word + tail) == |word|
  {
    if word == "" {
      assert word + tail == tail;
    } else {
      assert (word + tail)[1..] == word[1..] + tail;
      WordLengthOf(word[1..], tail);
    }
  }

  /** The words of a string, one at a time: blanks, then a word up to the next blank. */
  lemma {:induction false} NextWord(gap: string, word: string, rest: string)
    requires (forall i :: 0 <= i < |gap| ==> IsWhitespace(gap[i])) && NoWhitespace(word) && word != ""
    requires rest == "" || IsWhitespace(rest[0])
    ensures SplitWhitespace(gap + word + rest) == [word] + SplitWhitespace(rest)
    ensures SplitWhitespace(gap) == []
  {
    hide IsWhitespace;
    var s := gap + word + rest;
    if gap == "" {
      assert s == word + rest;
      WordLengthOf(word, rest);
      assert s[..|word|] == word && s[|word|..] == rest;
    } else {
      assert s[1..] == gap[1..] + word + rest;
      NextWord(gap[1..], word, rest);
    }
  }

  lemma SplitTwoWords(a: string, b: string)
    requires a != "" && b != "" && NoWhitespace(a) && NoWhitespace(b)
    ensures SplitWhitespace(a + " " + b) == [a, b]
  {
    var s := a + " " + b;
    assert s == a + (" " + b);
    WordLengthOf(a, " " + b);
    assert s[..|a|] == a && s[|a|..] == " " + b && (" " + b)[1..] == b;
    assert b + "" == b;
    WordLengthOf(b, "");
    assert b[..|b|] == b && b[|b|..] == "";
    assert SplitWhitespace(b) == [b];
  }

  /** The first occurrence, after a head in which the pattern cannot start. */
  lemma {:induction false} FindAfter(head: string, pattern: string, tail: string)
    requires |pattern| >= 1
    requires forall i :: 0 <= i < |head| ==> !StartsWith((head + pattern + tail)[i..], pattern)
    ensures Find(head + pattern + tail, pattern) == Some(|head|)
  {
    var s := head + pattern + tail;
    if head == "" {
      assert s == pattern + tail;
    } else {
      assert s[0..] == s;
      assert s[1..] == head[1..] + pattern + tail;
      forall i | 0 <= i < |head| - 1 ensures !StartsWith((head[1..] + pattern + tail)[i..], pattern) {
        assert s[1..][i..] == s[i + 1..];
      }
      FindAfter(head[1..], pattern, tail);
    }
  }

  // ---------- Lines ----------

  /** `[:prefix] COMMAND [params...] [:trailing]`. */
  datatype ParsedLine = ParsedLine(prefix: Option<string>, command: string, params: seq<string>,
                                   trailing: Option<string>)

  function SplitOnceSpace(s: string): (string, string) {
    match Find(s, " ")
    case None => (s, "")
    case Some(i) => (s[..i], TrimStart(s[i + 1..]))
  }

  function ParseBody(prefix: Option<string>, body: string): ParsedLine {
    var cut := Find(body, " :");
    var trailing := if cut.Some? then Some(body[cut.value + 2..]) else None;
    var words := SplitWhitespace(if cut.Some? then body[..cut.value] else body);
    if words == [] then ParsedLine(prefix, "", [], trailing)
    else ParsedLine(prefix, words[0], words[1..], trailing)
  }

  function Parse(raw: string): ParsedLine {
    if StartsWith(raw, ":") then
      var (prefix, rest) := SplitOnceSpace(raw[1..]);
      ParseBody(Some(prefix), rest)
    else ParseBody(None, raw)
  }

  /** What a session sends for a message. */
  function PrivMsg(channel: string, text: string): string {
    "PRIVMSG " + channel + " :" + text
  }

  /** A line as a server relays it, with or without the sender's prefix. */
  function Relayed(prefix: Option<string>, line: string): string {
    match prefix
    case None => line
    case Some(p) => ":" + p + " " + line
  }

  /** A command with one parameter and a text. */
  function Line(command: string, target: string, text: string): string {
    command + " " + target + " :" + text
  }

  predicate IsWord(s: string) {
    NoWhitespace(s) && s != "" && s[0] != ':'
  }

  /** The text's mark is the first one in the line. */
  lemma FindText(command: string, target: string, text: string)
    requires IsWord(command) && IsWord(target)
    ensures Find(Line(command, target, text), " :") == Some(|command + " " + target|)
  {
    var head := command + " " + target;
    var s := Line(command, target, text);
    assert s == head + " :" + text;
    forall i | 0 <= i < |head| ensures !StartsWith(s[i..], " :") {
      assert s[i..][..2][0] == s[i] && s[i..][..2][1] == s[i + 1];
      if i < |command| {
        assert s[i] == command[i];
      } else if i == |command| {
        assert s[i + 1] == target[0];
      } else {
        assert s[i] == target[i - |command| - 1];
      }
    }
    FindAfter(head, " :", text);
  }

  lemma ParseLineBody(prefix: Option<string>, command: string, target: string, text: string)
    requires IsWord(command) && IsWord(target)
    ensures ParseBody(prefix, Line(command, target, text)) == ParsedLine(prefix, command, [target], Some(text))
  {
    hide Find, SplitWhitespace;
    var head := command + " " + target;
    var s := Line(command, target, text);
    FindText(command, target, text);
    assert s == head + " :" + text;
    assert s[..|head|] == head && s[|head| + 2..] == text;
    SplitTwoWords(command, target);
  }

  lemma {:induction false} FindSpace(p: string, tail: string)
    requires FreeOf(p, ' ')
    ensures Find(p + " " + tail, " ") == Some(|p|)
  {
    var s := p + " " + tail;
    forall i | 0 <= i < |p| ensures !StartsWith(s[i..], " ") {
      assert s[i..][..1][0] == p[i] && p[i] in p;
    }
    FindAfter(p, " ", tail);
  }

  /** Any command to one target reads back, whatever the text, with any space-free prefix
      or none. */
  lemma LineRoundTrip(prefix: Option<string>, command: string, target: string, text: string)
    requires IsWord(command) && IsWord(target) && (prefix.Some? ==> FreeOf(prefix.value, ' '))
    ensures Parse(Relayed(prefix, Line(command, target, text))) == ParsedLine(prefix, command, [target], Some(text))
  {
    hide ParseBody, Find, SplitOnceSpace;
    var line := Line(command, target, text);
    ParseLineBody(prefix, command, target, text);
    assert line[0] == command[0];
    if prefix.Some? {
      SplitOffPrefix(prefix.value, "", line);
      assert ":" + prefix.value + " " + "" + line == Relayed(prefix, line);
    } else {
      assert line[..1][0] == command[0];
    }
  }

  lemma NoMark(s: string)
    requires forall i :: 0 <= i < |s| - 1 ==> s[i] != ' ' || s[i + 1] != ':'
    ensures Find(s, " :").None?
  {
    forall i | 0 <= i <= |s| ensures !StartsWith(s[i..], " :") {
      if i + 2 <= |s| {
        assert s[i..][..2] == [s[i], s[i + 1]];
      }
    }
  }

  /** A command to one target without a text. */
  lemma TextlessRoundTrip(command: string, target: string)
    requires IsWord(command) && IsWord(target)
    ensures Parse(command + " " + target) == ParsedLine(None, command, [target], None)
  {
    hide Find, SplitWhitespace, IsWhitespace;
    var s := command + " " + target;
    assert s[..1][0] == command[0];
    BlanksAreSpaces(command, target);
    NoMark(s);
    SplitTwoWords(command, target);
  }

  lemma BlanksAreSpaces(command: string, target: string)
    requires IsWord(command) && IsWord(target)
    ensures var s := command + " " + target;
            forall i :: 0 <= i < |s| - 1 ==> s[i] != ' ' || s[i + 1] != ':'
  {
    var s := command + " " + target;
    forall i | 0 <= i < |s| - 1 ensures s[i] != ' ' || s[i + 1] != ':' {
      if i < |command| {
        assert s[i] == command[i];
      } else if i == |command| {
        assert s[i + 1] == target[0];
      } else {
        assert s[i] == target[i - |command| - 1];
      }
    }
  }

  /** What a session sends for a message reads back. */
  lemma PrivMsgRoundTrip(prefix: Option<string>, channel: string, text: string)
    requires IsWord(channel) && (prefix.Some? ==> FreeOf(prefix.value, ' '))
    ensures Parse(Relayed(prefix, PrivMsg(channel, text))) == ParsedLine(prefix, "PRIVMSG", [channel], Some(text))
  {
    hide Parse;
    assert "PRIVMSG " == "PRIVMSG" + " ";
    assert PrivMsg(channel, text) == Line("PRIVMSG", channel, text);
    LineRoundTrip(prefix, "PRIVMSG", channel, text);
  }

  lemma {:induction false} TrimStartSkips(gap: string, s: string)
    requires (forall i :: 0 <= i < |gap| ==> IsWhitespace(gap[i])) && (s == "" || !IsWhitespace(s[0]))
    ensures TrimStart(gap + s) == s
  {
    if gap == "" {
      assert gap + s == s;
    } else {
      assert (gap + s)[1..] == gap[1..] + s;
      TrimStartSkips(gap[1..], s);
    }
  }

  /** The prefix ends at the first space, however many blanks follow it. */
  lemma SplitOffPrefix(prefix: string, gap: string, line: string)
    requires FreeOf(prefix, ' ') && line != "" && !IsWhitespace(line[0])
    requires forall i :: 0 <= i < |gap| ==> IsWhitespace(gap[i])
    ensures Parse(":" + prefix + " " + gap + line) == ParseBody(Some(prefix), line)
  {
    hide ParseBody, Find, TrimStart;
    var raw, rest := ":" + prefix + " " + gap + line, gap + line;
    assert raw[..1] == ":" && raw[1..] == prefix + " " + rest;
    FindSpace(prefix, rest);
    assert (prefix + " " + rest)[..|prefix|] == prefix && (prefix + " " + rest)[|prefix| + 1..] == rest;
    TrimStartSkips(gap, line);
  }

  // ---------- Transport ----------

  /** The next line of a stream with its line ends cut off. */
  function ReadLine(stream: string): string {
    var end := Find(stream, "\n");
    TrimLineEnd(if end.Some? then stream[..end.value + 1] else stream)
  }

  function TrimLineEnd(s: string): string {
    if s != "" && (s[|s| - 1] == '\r' || s[|s| - 1] == '\n') then TrimLineEnd(s[..|s| - 1]) else s
  }

  ghost predicate OneLine(s: string) {
    FreeOf(s, '\r') && FreeOf(s, '\n')
  }

  lemma FindLineEnd(head: string, rest: string)
    requires FreeOf(head, '\n')
    ensures Find(head + "\n" + rest, "\n") == Some(|head|)
  {
    var stream := head + "\n" + rest;
    forall i | 0 <= i < |head| ensures !StartsWith(stream[i..], "\n") {
      assert stream[i..][..1][0] == head[i] && head[i] in head;
    }
    FindAfter(head, "\n", rest);
  }

  lemma TrimLineEndOf(line: string)
    requires OneLine(line)
    ensures TrimLineEnd(line + "\r" + "\n") == line
  {
    var head := line + "\r";
    assert (head + "\n")[..|head|] == head && head[..|line|] == line;
    if line != "" {
      assert line[|line| - 1] in line;
    }
    assert TrimLineEnd(head) == line;
    assert TrimLineEnd(head + "\n") == TrimLineEnd(head);
  }

  lemma {:induction false} TrimLineEndExactness(s: string)
    ensures var t := TrimLineEnd(s);
            && |t| <= |s| && s[..|t|] == t && (t != "" ==> t[|t| - 1] != '\r' && t[|t| - 1] != '\n')
            && forall i :: |t| <= i < |s| ==> s[i] == '\r' || s[i] == '\n'
  {
    if s != "" && (s[|s| - 1] == '\r' || s[|s| - 1] == '\n') {
      TrimLineEndExactness(s[..|s| - 1]);
    }
  }

  /** What is read is the stream up to its first line feed, or all of it, without the
      carriage returns before that place. */
  lemma ReadLineExactness(stream: string, n: nat)
    requires n <= |stream| && FreeOf(stream[..n], '\n') && (n == |stream| || stream[n] == '\n')
    ensures var line := ReadLine(stream);
            && |line| <= n && stream[..|line|] == line && (line != "" ==> line[|line| - 1] != '\r')
            && forall i :: |line| <= i < n ==> stream[i] == '\r'
  {
    hide Find, TrimLineEnd;
    var head := stream[..n];
    if n < |stream| {
      assert stream == head + "\n" + stream[n + 1..];
      FindLineEnd(head, stream[n + 1..]);
      TrimLineEndExactness(stream[..n + 1]);
    } else {
      assert stream == head;
      NoLineEnd(stream);
      TrimLineEndExactness(stream);
    }
    assert forall i :: 0 <= i < n ==> stream[i] == head[i] && head[i] in head;
  }

  lemma NoLineEnd(stream: string)
    requires FreeOf(stream, '\n')
    ensures Find(stream, "\n").None?
  {
    forall i | 0 <= i <= |stream| ensures !StartsWith(stream[i..], "\n") {
      if i < |stream| {
        assert stream[i..][..1] == [stream[i]] && stream[i] in stream;
      }
    }
  }

  /** A line written with its line end is read back, whatever follows it. */
  lemma ReadLineRoundTrip(line: string, rest: string)
    requires OneLine(line)
    ensures ReadLine(line + "\r\n" + rest) == line
  {
    hide Find, TrimLineEnd;
    var stream := line + "\r\n" + rest;
    var head := line + "\r";
    assert stream == head + "\n" + rest;
    FindLineEnd(head, rest);
    assert stream[..|head| + 1] == head + "\n";
    TrimLineEndOf(line);
  }

  // ---------- Topics and channels ----------

  function TopicToChannel(topic: string, namespace: string): Option<string> {
    var prefix := namespace + "/";
    if !StartsWith(topic, prefix) then None
    else
      var room := topic[|prefix|..];
      Some(if StartsWith(room, "#") then room else "#" + room)
  }

  /** A topic of the bridged namespace has its room as channel, with a hash before it only
      where the room has none; other topics have no channel. */
  lemma ChannelExactness(topic: string, namespace: string)
    ensures TopicToChannel(topic, namespace).Some? <==>
            |topic| >= |namespace| + 1 && topic[..|namespace|] == namespace && topic[|namespace|] == '/'
    ensures TopicToChannel(topic, namespace).Some? ==>
              var room := topic[|namespace| + 1..];
              TopicToChannel(topic, namespace).value ==
              if room != "" && room[0] == '#' then room else ['#'] + room
  {
    var prefix := namespace + "/";
    if |topic| >= |prefix| {
      assert topic[..|prefix|] == topic[..|namespace|] + [topic[|namespace|]];
      assert prefix == namespace + ['/'];
      var room := topic[|prefix|..];
      assert room != "" ==> room[..1] == [room[0]];
    }
  }

  function TrimHashes(s: string): string {
    if s != "" && s[0] == '#' then TrimHashes(s[1..]) else s
  }

  function ChannelToTopic(channel: string, namespace: string): string {
    namespace + "/" + TrimHashes(channel)
  }

  lemma {:induction false} TrimmedHasNoHash(s: string)
    ensures !StartsWith(TrimHashes(s), "#") && (TrimHashes(s) == s <==> !StartsWith(s, "#"))
    ensures |TrimHashes(s)| <= |s| && s[|s| - |TrimHashes(s)|..] == TrimHashes(s)
    ensures forall i :: 0 <= i < |s| - |TrimHashes(s)| ==> s[i] == '#'
  {
    if s != "" && s[0] == '#' {
      TrimmedHasNoHash(s[1..]);
      assert s[..1] == "#";
    } else if s != "" {
      assert s[..1] == [s[0]];
    }
  }

  function TopicOf(namespace: string, room: string): string {
    namespace + "/" + room
  }

  /** A bridged topic survives the way to a channel and back exactly when its room does
      not start with a hash sign. */
  lemma TopicRoundTrip(namespace: string, room: string)
    ensures TopicToChannel(TopicOf(namespace, room), namespace).Some?
    ensures ChannelToTopic(TopicToChannel(TopicOf(namespace, room), namespace).value, namespace)
            == TopicOf(namespace, room)
            <==> !StartsWith(room, "#")
  {
    var prefix := namespace + "/";
    var topic := TopicOf(namespace, room);
    assert topic[..|prefix|] == prefix && topic[|prefix|..] == room;
    var channel := TopicToChannel(topic, namespace).value;
    TrimmedHasNoHash(room);
    if !StartsWith(room, "#") {
      assert channel[1..] == room;
    } else {
      assert ChannelToTopic(channel, namespace)[|prefix|..] == TrimHashes(room);
    }
  }

  /** A channel survives the way to a topic and back exactly when it starts with one
      hash sign and no more. */
  lemma ChannelRoundTrip(channel: string, namespace: string)
    ensures TopicToChannel(ChannelToTopic(channel, namespace), namespace) == Some(channel)
            <==> StartsWith(channel, "#") && !StartsWith(channel[1..], "#")
  {
    var prefix := namespace + "/";
    var topic := ChannelToTopic(channel, namespace);
    assert topic[..|prefix|] == prefix && topic[|prefix|..] == TrimHashes(channel);
    TrimmedHasNoHash(channel);
    assert TopicToChannel(topic, namespace) == Some("#" + TrimHashes(channel));
    if StartsWith(channel, "#") {
      assert channel[..1][0] == '#';
      assert channel == "#" + channel[1..];
      TrimmedHasNoHash(channel[1..]);
      assert ("#" + TrimHashes(channel[1..]))[1..] == TrimHashes(channel[1..]);
    } else {
      assert ("#" + TrimHashes(channel))[..1] == "#";
    }
  }

  /** A message forwarded to the bus. */
  datatype Inbound = Inbound(topic: string, sender: string, text: string)

  function AsciiUpper(c: char): char {
    if 'a' <= c <= 'z' then c - ' ' else c
  }

  predicate EqIgnoreAsciiCase(a: string, b: string) {
    |a| == |b| && forall i :: 0 <= i < |a| ==> AsciiUpper(a[i]) == AsciiUpper(b[i])
  }

  function PrefixNick(line: ParsedLine): Option<string> {
    match line.prefix
    case None => None
    case Some(p) => Some(Split(p, '!')[0])
  }

  /** The event a forwarding session makes of one line, if any. */
  function HandleInbound(raw: string, namespace: string): Option<Inbound> {
    var line := Parse(raw);
    if raw == "" || EqIgnoreAsciiCase(line.command, "PING") || !EqIgnoreAsciiCase(line.command, "PRIVMSG") then None
    else if line.params == [] || !StartsWith(line.params[0], "#") then None
    else
      var sender := PrefixNick(line);
      Some(Inbound(ChannelToTopic(line.params[0], namespace),
                   if sender.Some? then sender.value else "unknown",
                   if line.trailing.Some? then line.trailing.value else ""))
  }

  lemma IgnoringCase(command: string)
    ensures EqIgnoreAsciiCase(command, "PRIVMSG") <==>
            |command| == 7 && forall i :: 0 <= i < 7 ==> command[i] == "PRIVMSG"[i] || command[i] == "privmsg"[i]
  {
  }

  lemma NickOf(nick: string, host: string)
    requires FreeOf(nick, '!')
    ensures Split(nick + "!" + host, '!')[0] == nick && Split(nick, '!')[0] == nick
  {
    SplitPrepend(nick, host, '!');
    assert nick + "!" + host == nick + ['!'] + host;
  }

  /** Of the lines with one target and a text, those forwarded are the messages to a channel,
      in upper or lower case: joins, notices and direct messages are not. What is forwarded
      is the text, the nick before the host, and the room behind the hash signs. */
  lemma ForwardedExactly(nick: string, host: string, command: string, target: string, text: string,
                         namespace: string)
    requires IsWord(command) && IsWord(target)
    requires FreeOf(nick, ' ') && FreeOf(nick, '!') && FreeOf(host, ' ')
    ensures var r := HandleInbound(Relayed(Some(nick + "!" + host), Line(command, target, text)), namespace);
            && (r.Some? <==>
                && |command| == 7
                && (forall i :: 0 <= i < 7 ==> command[i] == "PRIVMSG"[i] || command[i] == "privmsg"[i])
                && target[0] == '#')
            && (r.Some? ==> r.value.sender == nick && r.value.text == text)
            && (r.Some? ==> r.value.topic == ChannelToTopic(target, namespace))
    ensures var r := HandleInbound(Line(command, target, text), namespace);
            r.Some? ==> r.value.sender == "unknown" && r.value.text == text
    ensures var r := HandleInbound(command + " " + target, namespace);
            r.Some? ==> r.value.sender == "unknown" && r.value.text == ""
  {
    hide Parse, EqIgnoreAsciiCase;
    LineRoundTrip(Some(nick + "!" + host), command, target, text);
    LineRoundTrip(None, command, target, text);
    TextlessRoundTrip(command, target);
    IgnoringCase(command);
    NotBoth(command);
    NickOf(nick, host);
    assert target[..1] == [target[0]];
  }

  lemma NotBoth(command: string)
    ensures !(EqIgnoreAsciiCase(command, "PRIVMSG") && EqIgnoreAsciiCase(command, "PING"))
  {
  }

  /** A message published to a bridged topic, relayed by a server and read from the
      stream, arrives with its sender's nick and text, and under its own topic exactly
      when the room does not start with a hash sign. */
  lemma PublishedMessageArrives(namespace: string, room: string, text: string, nick: string, host: string, rest: string)
    requires NoWhitespace(room) && OneLine(text)
    requires FreeOf(nick, ' ') && FreeOf(nick, '!') && OneLine(nick) && FreeOf(host, ' ') && OneLine(host)
    ensures TopicToChannel(TopicOf(namespace, room), namespace).Some?
    ensures var channel := TopicToChannel(TopicOf(namespace, room), namespace).value;
            var stream := Relayed(Some(nick + "!" + host), PrivMsg(channel, text)) + "\r\n" + rest;
            var arrived := HandleInbound(ReadLine(stream), namespace);
            && arrived.Some? && arrived.value.sender == nick && arrived.value.text == text
            && (arrived.value.topic == TopicOf(namespace, room) <==> !StartsWith(room, "#"))
  {
    TopicRoundTrip(namespace, room);
    var channel := TopicToChannel(TopicOf(namespace, room), namespace).value;
    ChannelOfRoom(namespace, room);
    var prefix := nick + "!" + host;
    var line := Relayed(Some(prefix), PrivMsg(channel, text));
    assert OneLine(line) by {
      ChannelIsOneLine(channel);
    }
    ReadLineRoundTrip(line, rest);
    PrivMsgRoundTrip(Some(prefix), channel, text);
    SplitPrepend(nick, host, '!');
    assert nick + ['!'] + host == prefix;
  }

  lemma ChannelOfRoom(namespace: string, room: string)
    requires NoWhitespace(room)
    ensures TopicToChannel(TopicOf(namespace, room), namespace).Some?
    ensures var channel := TopicToChannel(TopicOf(namespace, room), namespace).value;
            NoWhitespace(channel) && channel != "" && channel[0] == '#' && StartsWith(channel, "#")
  {
    var prefix := namespace + "/";
    var topic := TopicOf(namespace, room);
    assert topic[..|prefix|] == prefix && topic[|prefix|..] == room;
    var channel := TopicToChannel(topic, namespace).value;
    assert channel[..1] == "#";
    assert channel[0] == channel[..1][0];
  }

  lemma ChannelIsOneLine(channel: string)
    requires NoWhitespace(channel)
    ensures OneLine(channel)
  {
  }
}

/**
 * RTSP message framing: which bytes of a stream make up the next message. A byte is a
 * char, and white space is ASCII white space.
 */
module Rtsp {
  import opened Options

  const MAX_HEADER := 65536
  const MAX_BODY := 1048576
  const INT64_LIMIT := 0x8000_0000_0000_0000

  // Text

  predicate IsSpace(c: char) {
    c == ' ' || 9 <= c as int <= 13
  }

  /** The first position of c, or the length of s. */
  function Find(s: string, c: char): (i: nat)
    ensures i <= |s| && c !in s[..i] && (i < |s| ==> s[i] == c)
  {
    if s == "" || s[0] == c then 0
    else
      var i := 1 + Find(s[1..], c);
      assert s[..i] == [s[0]] + s[1..][..i - 1];
      i
  }

  function TrimLeft(s: string): string {
    if s != "" && IsSpace(s[0]) then TrimLeft(s[1..]) else s
  }

  function TrimRight(s: string): string {
    if s != "" && IsSpace(s[|s| - 1]) then TrimRight(s[..|s| - 1]) else s
  }

  function TrimSpace(s: string): string {
    TrimRight(TrimLeft(s))
  }

  function Lower(s: string): string {
    seq(|s|, i requires 0 <= i < |s| => if 'A' <= s[i] <= 'Z' then s[i] - 'A' + 'a' else s[i])
  }

  function Upper(s: string): string {
    seq(|s|, i requires 0 <= i < |s| => if 'a' <= s[i] <= 'z' then s[i] - 'a' + 'A' else s[i])
  }

  /** The number that a non-empty string of decimal digits denotes. */
  function Digits(s: string): Option<nat> {
    if s == "" then None
    else
      var last := s[|s| - 1];
      if !('0' <= last <= '9') then None
      else if |s| == 1 then Some((last - '0') as int)
      else match Digits(s[..|s| - 1])
        case None => None
        case Some(n) => Some(10 * n + (last - '0') as int)
  }

  /** ParseInt in base 10 with 64 bits: an optional sign, digits, and a value in range. */
  function ParseInt(s: string): Option<int> {
    var negative := s != "" && s[0] == '-';
    var signed := s != "" && (s[0] == '-' || s[0] == '+');
    match Digits(if signed then s[1..] else s)
    case None => None
    case Some(n) =>
      var value := if negative then 0 - n as int else n as int;
      if -INT64_LIMIT <= value < INT64_LIMIT then Some(value) else None
  }

  // What trimming and parsing numbers mean

  predicate AllSpace(s: string) {
    forall c :: c in s ==> IsSpace(c)
  }

  /** No white space at either end. */
  predicate Tight(s: string) {
    s != "" ==> !IsSpace(s[0]) && !IsSpace(s[|s| - 1])
  }

  lemma {:induction false} TrimLeftPadded(pad: string, s: string)
    requires AllSpace(pad) && (s != "" ==> !IsSpace(s[0]))
    ensures TrimLeft(pad + s) == s
  {
    if pad == "" {
      assert pad + s == s;
    } else {
      assert (pad + s)[1..] == pad[1..] + s && (pad + s)[0] in pad;
      TrimLeftPadded(pad[1..], s);
    }
  }

  lemma {:induction false} TrimRightPadded(s: string, pad: string)
    requires AllSpace(pad) && (s != "" ==> !IsSpace(s[|s| - 1]))
    ensures TrimRight(s + pad) == s
  {
    if pad == "" {
      assert s + pad == s;
    } else {
      var last := |s + pad| - 1;
      assert (s + pad)[..last] == s + pad[..|pad| - 1] && (s + pad)[last] in pad;
      TrimRightPadded(s, pad[..|pad| - 1]);
    }
  }

  /** TrimSpace finds the text between any padding. */
  lemma TrimSpacePadded(left: string, s: string, right: string)
    requires AllSpace(left) && Tight(s) && AllSpace(right)
    ensures TrimSpace(left + s + right) == s
  {
    if s == "" {
      assert left + s + right == (left + right) + "" && "" + "" == "";
      TrimLeftPadded(left + right, "");
      TrimRightPadded("", "");
    } else {
      assert left + s + right == left + (s + right);
      TrimLeftPadded(left, s + right);
      TrimRightPadded(s, right);
    }
  }

  function Decimal(n: nat): (s: string)
    ensures s != "" && forall c :: c in s ==> '0' <= c <= '9'
  {
    var digit := '0' + (n % 10) as char;
    if n < 10 then [digit] else Decimal(n / 10) + [digit]
  }

  lemma {:induction false} DigitsOfDecimal(n: nat)
    ensures Digits(Decimal(n)) == Some(n)
  {
    if n >= 10 {
      DigitsOfDecimal(n / 10);
      var s := Decimal(n);
      assert s[..|s| - 1] == Decimal(n / 10);
    }
  }

  lemma ParseIntOfDigits(s: string, n: nat)
    requires s != "" && '0' <= s[0] <= '9' && Digits(s) == Some(n)
    ensures n < INT64_LIMIT ==> ParseInt(s) == Some(n as int)
    ensures n >= INT64_LIMIT ==> ParseInt(s) == None
    ensures 0 < n <= INT64_LIMIT ==> ParseInt("-" + s) == Some(0 - n as int)
  {
  }

  // Lines

  /** Where the line that starts at pos ends, if its newline fits the reader's buffer. */
  function LineEnd(s: string, pos: nat): (r: Option<nat>)
    requires pos <= |s|
    ensures r.Some? ==> pos < r.value <= |s| && IsLine(s[pos..r.value])
  {
    var i := Find(s[pos..], '\n');
    if i < |s| - pos && i < MAX_HEADER
    then assert s[pos..pos + i + 1][..i] == s[pos..][..i]; Some(pos + i + 1)
    else None
  }

  predicate IsLine(l: string) {
    l != "" && l[|l| - 1] == '\n' && '\n' !in l[..|l| - 1]
  }

  predicate Blank(l: string) {
    l == "\r\n" || l == "\n"
  }

  /** What a Content-Length line declares, if the line is one. */
  function ContentLength(line: string): Option<string> {
    var i := Find(line, ':');
    if i < |line| && Lower(TrimSpace(line[..i])) == "content-length" then Some(TrimSpace(line[i + 1..])) else None
  }

  /** The declared length after one more header line, or None for an invalid or second declaration. */
  function Note(declared: Option<nat>, line: string): Option<Option<nat>> {
    match ContentLength(line)
    case None => Some(declared)
    case Some(text) =>
      match ParseInt(text)
      case None => None
      case Some(n) => if declared.Some? || n < 0 then None else Some(Some(n))
  }

  lemma FindAt(s: string, c: char, i: nat)
    requires i < |s| && s[i] == c && c !in s[..i]
    ensures Find(s, c) == i
  {
  }

  lemma NameIsTight(name: string)
    requires Lower(name) == "content-length"
    ensures ':' !in name && Tight(name) && |name| == 14
  {
    var lower := Lower(name);
    assert |lower| == 14 && lower[0] == 'c' && lower[13] == 'h';
    forall i | 0 <= i < |name|
      ensures name[i] != ':'
    {
      assert lower[i] != ':';
    }
  }

  lemma ContentLengthIs(name: string, value: string)
    requires Lower(name) == "content-length"
    ensures ContentLength(name + ":" + value) == Some(TrimSpace(value))
  {
    var line := name + ":" + value;
    NameIsTight(name);
    assert line[14] == ':' && line[..14] == name && line[15..] == value;
    FindAt(line, ':', 14);
    assert "" + name + "" == name;
    TrimSpacePadded("", name, "");
  }

  /** A Content-Length line declares the number it shows, in any letter case and padding. */
  lemma ContentLengthRoundTrip(name: string, left: string, n: nat, right: string)
    requires Lower(name) == "content-length" && AllSpace(left) && AllSpace(right) && n < INT64_LIMIT
    ensures Note(None, name + ":" + (left + Decimal(n) + right)) == Some(Some(n))
    ensures forall seen: nat :: Note(Some(seen), name + ":" + (left + Decimal(n) + right)) == None
  {
    ContentLengthIs(name, left + Decimal(n) + right);
    assert Decimal(n)[0] in Decimal(n) && Decimal(n)[|Decimal(n)| - 1] in Decimal(n);
    TrimSpacePadded(left, Decimal(n), right);
    DigitsOfDecimal(n);
    ParseIntOfDigits(Decimal(n), n);
  }

  // Messages

  function Joined(lines: seq<string>): string {
    if lines == [] then "" else lines[0] + Joined(lines[1..])
  }

  /** Header lines: the blank one is the last. */
  predicate IsHeader(lines: seq<string>) {
    && lines != []
    && (forall i :: 0 <= i < |lines| ==>
          IsLine(lines[i]) && (lines[i] == "\r\n" || lines[i] == "\n" <==> i == |lines| - 1))
  }

  /** The header lines from pos up to the blank one, if they stay within the limit. */
  function HeaderLines(s: string, pos: nat): Option<seq<string>>
    requires pos <= |s|
    decreases |s| - pos
  {
    match LineEnd(s, pos)
    case None => None
    case Some(end) =>
      if end > MAX_HEADER then None
      else if Blank(s[pos..end]) then Some([s[pos..end]])
      else Prepend(s[pos..end], HeaderLines(s, end))
  }

  function Prepend(line: string, lines: Option<seq<string>>): Option<seq<string>> {
    if lines.None? then None else Some([line] + lines.value)
  }

  /** The body length that header lines declare: none, or exactly one valid declaration. */
  function Declares(declared: Option<nat>, lines: seq<string>): Option<nat>
    decreases |lines|
  {
    if lines == [] then Some(if declared.Some? then declared.value else 0)
    else match Note(declared, lines[0])
      case None => None
      case Some(next) => Declares(next, lines[1..])
  }

  /** Where the message ends whose header goes on at pos, having declared this much so far. */
  function EndFrom(s: string, pos: nat, declared: Option<nat>): (r: Option<nat>)
    requires pos <= |s|
    ensures r.Some? ==> pos <= r.value <= |s|
  {
    match HeaderLines(s, pos)
    case None => None
    case Some(lines) => WithBody(s, pos + |Joined(lines)|, Declares(declared, lines))
  }

  function WithBody(s: string, end: nat, body: Option<nat>): Option<nat> {
    if body.None? || body.value > MAX_BODY || end + body.value > |s| then None else Some(end + body.value)
  }

  /** The length of the message at the front of s, if there is a whole one. */
  function MessageLength(s: string): (r: Option<nat>)
    ensures r.Some? ==> 0 < r.value <= |s|
  {
    match LineEnd(s, 0)
    case None => None
    case Some(first) => EndFrom(s, first, None)
  }

  function StartLine(s: string): string {
    match LineEnd(s, 0)
    case None => ""
    case Some(end) => TrimSpace(s[..end])
  }

  // What a message is, said without a parser

  /** A start line, header lines and the declared body, within the size limits. */
  ghost predicate IsMessage(m: string) {
    exists start: string, lines: seq<string>, body: string :: MadeOf(m, start, lines, body)
  }

  predicate MadeOf(m: string, start: string, lines: seq<string>, body: string) {
    && m == start + Joined(lines) + body
    && IsLine(start) && IsHeader(lines)
    && |start| + |Joined(lines)| <= 65536
    && Declares(None, lines) == Some(|body|) && |body| <= 1048576
  }

  lemma LineEndIs(s: string, pos: nat, end: nat)
    requires pos < end <= |s| && end - pos <= MAX_HEADER && IsLine(s[pos..end])
    ensures LineEnd(s, pos) == Some(end)
  {
  }

  /** The lines found are a header, and they are the bytes they were found in. */
  lemma {:induction false} LinesSound(s: string, pos: nat)
    requires pos <= |s| && HeaderLines(s, pos).Some?
    ensures var lines := HeaderLines(s, pos).value;
            && IsHeader(lines) && pos + |Joined(lines)| <= |s| && pos + |Joined(lines)| <= MAX_HEADER
            && s[pos..pos + |Joined(lines)|] == Joined(lines)
    decreases |s| - pos
  {
    hide LineEnd;
    var lines := HeaderLines(s, pos).value;
    var end := LineEnd(s, pos).value;
    var line, rest := s[pos..end], lines[1..];
    assert lines[0] == line;
    if Blank(line) {
      assert rest == [];
      assert Joined(lines) == line + "";
    } else {
      LinesSound(s, end);
      assert lines == [line] + rest && HeaderLines(s, end) == Some(rest);
      assert s[pos..end + |Joined(rest)|] == line + s[end..end + |Joined(rest)|];
    }
  }

  lemma FirstLine(s: string, pos: nat, lines: seq<string>)
    requires lines != [] && pos + |Joined(lines)| <= |s|
    requires s[pos..pos + |Joined(lines)|] == Joined(lines)
    ensures s[pos..pos + |lines[0]|] == lines[0]
    ensures s[pos + |lines[0]|..pos + |Joined(lines)|] == Joined(lines[1..])
  {
    var all := s[pos..pos + |Joined(lines)|];
    assert all == lines[0] + Joined(lines[1..]);
    assert s[pos..pos + |lines[0]|] == all[..|lines[0]|];
    assert s[pos + |lines[0]|..pos + |Joined(lines)|] == all[|lines[0]|..];
  }

  lemma LastLine(s: string, pos: nat, end: nat)
    requires pos < end <= |s| && end <= MAX_HEADER && LineEnd(s, pos) == Some(end) && Blank(s[pos..end])
    ensures HeaderLines(s, pos) == Some([s[pos..end]])
  {
  }

  lemma MoreLines(s: string, pos: nat, end: nat, rest: seq<string>)
    requires pos < end <= |s| && end <= MAX_HEADER && LineEnd(s, pos) == Some(end) && !Blank(s[pos..end])
    requires HeaderLines(s, end) == Some(rest)
    ensures HeaderLines(s, pos) == Some([s[pos..end]] + rest)
  {
  }

  lemma {:induction false} LinesComplete(s: string, pos: nat, lines: seq<string>)
    requires IsHeader(lines) && pos + |Joined(lines)| <= |s| && pos + |Joined(lines)| <= MAX_HEADER
    requires s[pos..pos + |Joined(lines)|] == Joined(lines)
    ensures HeaderLines(s, pos) == Some(lines)
    decreases |lines|
  {
    hide LineEnd, HeaderLines, Blank;
    var line, rest := lines[0], lines[1..];
    var end := pos + |line|;
    FirstLine(s, pos, lines);
    LineEndIs(s, pos, end);
    if |lines| == 1 {
      LastLine(s, pos, end);
      assert lines == [line];
    } else {
      RestIsHeader(lines);
      LinesComplete(s, end, rest);
      MoreLines(s, pos, end, rest);
      assert lines == [line] + rest;
    }
  }

  lemma RestIsHeader(lines: seq<string>)
    requires IsHeader(lines) && |lines| > 1
    ensures IsHeader(lines[1..]) && !Blank(lines[0])
  {
  }

  lemma Pieces(s: string, x: string, y: string, z: string)
    requires |x| + |y| + |z| <= |s|
    ensures s[..|x| + |y| + |z|] == x + y + z <==>
            (s[0..|x|] == x && s[|x|..|x| + |y|] == y && s[|x| + |y|..|x| + |y| + |z|] == z)
  {
    var a, b, n := |x|, |x| + |y|, |x| + |y| + |z|;
    assert s[..n] == s[0..a] + s[a..b] + s[b..n];
    assert (x + y + z)[..a] == x && (x + y + z)[a..b] == y && (x + y + z)[b..] == z;
    assert s[..n][..a] == s[0..a] && s[..n][a..b] == s[a..b] && s[..n][b..] == s[b..n];
  }

  lemma Assemble(s: string, first: nat, lines: seq<string>, n: nat)
    requires var end := first + |Joined(lines)|;
             && end <= n <= |s| && end <= MAX_HEADER && n - end <= MAX_BODY
             && IsLine(s[0..first]) && IsHeader(lines) && s[first..end] == Joined(lines)
             && Declares(None, lines) == Some(n - end)
    ensures IsMessage(s[..n])
  {
    hide Declares;
    var start, body := s[0..first], s[first + |Joined(lines)|..n];
    Pieces(s, start, Joined(lines), body);
    assert MadeOf(s[..n], start, lines, body);
  }

  lemma AcceptedParts(s: string) returns (first: nat, lines: seq<string>, n: nat)
    requires MessageLength(s).Some?
    ensures MessageLength(s) == Some(n)
    ensures first <= |s| && LineEnd(s, 0) == Some(first) && HeaderLines(s, first) == Some(lines)
    ensures first + |Joined(lines)| <= n && Declares(None, lines) == Some(n - first - |Joined(lines)|)
    ensures n - first - |Joined(lines)| <= MAX_BODY
  {
    hide LineEnd, HeaderLines, Declares, Joined;
    first, n := LineEnd(s, 0).value, MessageLength(s).value;
    lines := HeaderLines(s, first).value;
  }

  lemma AcceptedIsMessage(s: string)
    requires MessageLength(s).Some?
    ensures IsMessage(s[..MessageLength(s).value])
  {
    var first, lines, n := AcceptedParts(s);
    LinesSound(s, first);
    Assemble(s, first, lines, n);
  }

  lemma MessageIsAccepted(s: string, n: nat, start: string, lines: seq<string>, body: string)
    requires n <= |s| && MadeOf(s[..n], start, lines, body)
    ensures MessageLength(s) == Some(n)
  {
    hide LineEnd, HeaderLines, Declares, Joined;
    assert n == |start| + |Joined(lines)| + |body|;
    Pieces(s, start, Joined(lines), body);
    LineEndIs(s, 0, |start|);
    LinesComplete(s, |start|, lines);
  }

  /** The framer accepts exactly the messages, whatever follows them. */
  lemma FramesExactlyMessages(s: string, n: nat)
    requires n <= |s|
    ensures MessageLength(s) == Some(n) <==> IsMessage(s[..n])
  {
    if MessageLength(s) == Some(n) {
      AcceptedIsMessage(s);
    }
    if IsMessage(s[..n]) {
      var start, lines, body :| MadeOf(s[..n], start, lines, body);
      MessageIsAccepted(s, n, start, lines, body);
    }
  }

  /** No message is a proper prefix of another, so a stream splits into messages in one way. */
  lemma MessagesArePrefixFree(a: string, b: string)
    requires IsMessage(a) && IsMessage(b) && a <= b
    ensures a == b
  {
    assert b[..|a|] == a && b[..|b|] == b;
    FramesExactlyMessages(b, |a|);
    FramesExactlyMessages(b, |b|);
  }

  // One more header line

  lemma BlankDeclaresNothing(line: string)
    requires Blank(line)
    ensures ContentLength(line) == None
  {
  }

  lemma EndAtBlank(s: string, pos: nat, end: nat, declared: Option<nat>)
    requires pos < end <= |s| && end <= MAX_HEADER && LineEnd(s, pos) == Some(end) && Blank(s[pos..end])
    ensures EndFrom(s, pos, declared) == WithBody(s, end, Some(if declared.Some? then declared.value else 0))
  {
    var line := s[pos..end];
    LastLine(s, pos, end);
    BlankDeclaresNothing(line);
    var lines := [line];
    assert lines[0] == line && lines[1..] == [];
    assert Note(declared, line) == Some(declared);
    assert Declares(declared, lines) == Declares(declared, []);
    assert Joined(lines) == line + "";
  }

  lemma EndAfterLine(s: string, pos: nat, end: nat, declared: Option<nat>)
    requires pos < end <= |s| && end <= MAX_HEADER && LineEnd(s, pos) == Some(end) && !Blank(s[pos..end])
    ensures EndFrom(s, pos, declared) ==
            match Note(declared, s[pos..end]) {
              case None => None
              case Some(next) => EndFrom(s, end, next)
            }
  {
  }

  // Requests and responses

  predicate IsWord(w: string) {
    w != "" && forall c :: c in w ==> !IsSpace(c)
  }

  function WordEnd(s: string): (i: nat)
    ensures i <= |s| && (forall c :: c in s[..i] ==> !IsSpace(c)) && (i < |s| ==> IsSpace(s[i]))
  {
    if s == "" || IsSpace(s[0]) then 0
    else
      var i := 1 + WordEnd(s[1..]);
      assert s[..i] == [s[0]] + s[1..][..i - 1];
      i
  }

  /** strings.Fields: the maximal runs without white space. */
  function Fields(s: string): (r: seq<string>)
    ensures forall w :: w in r ==> IsWord(w)
    decreases |s|
  {
    if s == "" then []
    else if IsSpace(s[0]) then Fields(s[1..])
    else [s[..WordEnd(s)]] + Fields(s[WordEnd(s)..])
  }

  predicate ValidRequest(requestLine: string) {
    var fields := Fields(requestLine);
    |fields| == 3 && fields[0] != "" && fields[1] != "" && fields[2] == "RTSP/1.0"
  }

  predicate NegotiationFinished(requestLine: string, responseLine: string) {
    var request, response := Fields(requestLine), Fields(responseLine);
    && request != [] && |response| >= 2
    && (Upper(request[0]) == "PLAY" || Upper(request[0]) == "RECORD")
    && "2" <= response[1]
  }

  /** After a word comes the end of the text or white space. */
  predicate WordStops(rest: string) {
    rest != "" ==> IsSpace(rest[0])
  }

  lemma FirstField(w: string, rest: string)
    requires IsWord(w) && WordStops(rest)
    ensures Fields(w + rest) == [w] + Fields(rest)
  {
    var s := w + rest;
    assert s[0] == w[0] && w[0] in w;
    assert WordEnd(s) == |w| by {
      assert forall j :: 0 <= j < |w| ==> s[j] in w;
      assert rest != "" ==> s[|w|] == rest[0];
    }
    assert s[..|w|] == w && s[|w|..] == rest;
  }

  lemma {:induction false} SkipSpace(pad: string, rest: string)
    requires AllSpace(pad)
    ensures Fields(pad + rest) == Fields(rest)
  {
    if pad == "" {
      assert pad + rest == rest;
    } else {
      assert (pad + rest)[1..] == pad[1..] + rest && (pad + rest)[0] == pad[0] && pad[0] in pad;
      SkipSpace(pad[1..], rest);
    }
  }

  lemma {:induction false} CutField(s: string) returns (pad: string, w: string, rest: string)
    requires Fields(s) != []
    ensures s == pad + (w + rest) && AllSpace(pad) && IsWord(w) && WordStops(rest)
    ensures Fields(s) == [w] + Fields(rest)
    decreases |s|
  {
    if IsSpace(s[0]) {
      var pad', w', rest' := CutField(s[1..]);
      pad, w, rest := [s[0]] + pad', w', rest';
      assert s == [s[0]] + s[1..];
    } else {
      pad, w, rest := "", s[..WordEnd(s)], s[WordEnd(s)..];
    }
  }

  lemma {:induction false} NoFields(s: string)
    ensures Fields(s) == [] <==> AllSpace(s)
    decreases |s|
  {
    if s != "" {
      assert s == [s[0]] + s[1..] && s[0] in s;
      if IsSpace(s[0]) {
        NoFields(s[1..]);
      }
    }
  }

  /** A method, a URI and the version, set apart and surrounded by white space. */
  predicate RequestOf(s: string, left: string, verb: string, gap: string, uri: string, gap': string, right: string) {
    && s == left + (verb + (gap + (uri + (gap' + ("RTSP/1.0" + right)))))
    && IsWord(verb) && IsWord(uri) && gap != "" && gap' != ""
    && AllSpace(left) && AllSpace(gap) && AllSpace(gap') && AllSpace(right)
  }

  lemma RequestHasFields(s: string, left: string, verb: string, gap: string, uri: string, gap': string, right: string)
    requires RequestOf(s, left, verb, gap, uri, gap', right)
    ensures Fields(s) == [verb, uri, "RTSP/1.0"]
  {
    var version := "RTSP/1.0";
    assert gap[0] in gap && gap'[0] in gap' && (right != "" ==> right[0] in right);
    NoFields(right);
    FirstField(version, right);
    SkipSpace(gap', version + right);
    FirstField(uri, gap' + (version + right));
    SkipSpace(gap, uri + (gap' + (version + right)));
    FirstField(verb, gap + (uri + (gap' + (version + right))));
    SkipSpace(left, verb + (gap + (uri + (gap' + (version + right)))));
  }

  lemma ValidIsRequest(s: string)
    requires ValidRequest(s)
    ensures exists left, verb, gap, uri, gap', right :: RequestOf(s, left, verb, gap, uri, gap', right)
  {
    var left, verb, rest := CutField(s);
    var gap, uri, rest' := CutField(rest);
    var gap', version, right := CutField(rest');
    NoFields(right);
    assert RequestOf(s, left, verb, gap, uri, gap', right);
  }

  /** A request line is valid if and only if it is a method, a URI and RTSP/1.0 with white space between. */
  lemma RequestIsValid(s: string)
    ensures ValidRequest(s) <==>
            exists left, verb, gap, uri, gap', right :: RequestOf(s, left, verb, gap, uri, gap', right)
  {
    if ValidRequest(s) {
      ValidIsRequest(s);
    }
    if left, verb, gap, uri, gap', right :| RequestOf(s, left, verb, gap, uri, gap', right) {
      RequestHasFields(s, left, verb, gap, uri, gap', right);
    }
  }
}

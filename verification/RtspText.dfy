/**
 * What the proxy's tests of single lines mean, said with words, white space, letters and
 * numerals: which lines declare a body length and which end a negotiation.
 */
module RtspText {
  import opened Options
  import opened Rtsp

  /** White space is space, tab, newline, vertical tab, form feed and carriage return. */
  lemma SpaceIs(c: char)
    ensures IsSpace(c) <==>
            c == ' ' || c == '\t' || c == '\n' || c == 11 as char || c == 12 as char || c == '\r'
  {
  }

  // Letters

  /** w is this word in capitals, with any of its letters in lower case. */
  predicate AnyCase(w: string, capitals: string) {
    |w| == |capitals| && forall i :: 0 <= i < |w| ==> SameLetter(w[i], capitals[i])
  }

  predicate SameLetter(c: char, capital: char) {
    c == capital || ('A' <= capital <= 'Z' && c as int == capital as int + 32)
  }

  lemma UpperIsAnyCase(w: string, capitals: string)
    requires forall i :: 0 <= i < |capitals| ==> 'A' <= capitals[i] <= 'Z'
    ensures Upper(w) == capitals <==> AnyCase(w, capitals)
  {
    if Upper(w) == capitals {
      assert |Upper(w)| == |w|;
      forall i | 0 <= i < |w|
        ensures SameLetter(w[i], capitals[i])
      {
        assert Upper(w)[i] == capitals[i];
      }
    }
    if AnyCase(w, capitals) {
      forall i | 0 <= i < |w|
        ensures Upper(w)[i] == capitals[i]
      {
        assert SameLetter(w[i], capitals[i]);
      }
    }
  }

  lemma LowerIsAnyCase(w: string)
    ensures Lower(w) == "content-length" <==> AnyCase(w, "CONTENT-LENGTH")
  {
    var lower, capitals := "content-length", "CONTENT-LENGTH";
    assert forall i :: 0 <= i < 14 ==> SameLetter(lower[i], capitals[i]);
    if Lower(w) == lower {
      assert |Lower(w)| == |w| == 14;
      forall i | 0 <= i < 14
        ensures SameLetter(w[i], capitals[i])
      {
        assert Lower(w)[i] == lower[i];
      }
    }
    if AnyCase(w, capitals) {
      forall i | 0 <= i < 14
        ensures Lower(w)[i] == lower[i]
      {
        assert SameLetter(w[i], capitals[i]);
      }
      assert Lower(w) == lower;
    }
  }

  // The end of a negotiation

  /** Some white space, a word, and the rest. */
  predicate Begins(s: string, pad: string, w: string, rest: string) {
    s == pad + (w + rest) && AllSpace(pad) && IsWord(w) && WordStops(rest)
  }

  lemma BeginsFields(s: string, pad: string, w: string, rest: string)
    requires Begins(s, pad, w, rest)
    ensures Fields(s) == [w] + Fields(rest)
  {
    SkipSpace(pad, w + rest);
    FirstField(w, rest);
  }

  /** The first word is PLAY or RECORD, in any letter case. */
  ghost predicate PlayRequest(s: string) {
    exists pad, verb, rest ::
      Begins(s, pad, verb, rest) && (AnyCase(verb, "PLAY") || AnyCase(verb, "RECORD"))
  }

  /** There is a second word, and it starts with a 2. */
  ghost predicate SuccessResponse(s: string) {
    exists pad, version, mid, gap, status, rest ::
      Begins(s, pad, version, mid) && Begins(mid, gap, status, rest) && status[0] == '2'
  }

  ghost predicate Finishes(request: string, response: string) {
    PlayRequest(request) && SuccessResponse(response)
  }

  lemma PlayIff(s: string)
    ensures PlayRequest(s) <==> Fields(s) != [] && (Upper(Fields(s)[0]) == "PLAY" || Upper(Fields(s)[0]) == "RECORD")
  {
    if Fields(s) != [] {
      var pad, w, rest := CutField(s);
      UpperIsAnyCase(w, "PLAY");
      UpperIsAnyCase(w, "RECORD");
      assert Begins(s, pad, w, rest);
    }
    if pad, verb, rest :| Begins(s, pad, verb, rest) && (AnyCase(verb, "PLAY") || AnyCase(verb, "RECORD")) {
      BeginsFields(s, pad, verb, rest);
      UpperIsAnyCase(verb, "PLAY");
      UpperIsAnyCase(verb, "RECORD");
    }
  }

  lemma SuccessIff(s: string)
    ensures SuccessResponse(s) <==> |Fields(s)| >= 2 && "2" <= Fields(s)[1]
  {
    if |Fields(s)| >= 2 {
      var pad, version, mid := CutField(s);
      var gap, status, rest := CutField(mid);
      assert Begins(s, pad, version, mid) && Begins(mid, gap, status, rest);
      assert Fields(s)[1] == status;
    }
    if pad, version, mid, gap, status, rest :|
       Begins(s, pad, version, mid) && Begins(mid, gap, status, rest) && status[0] == '2'
    {
      BeginsFields(s, pad, version, mid);
      BeginsFields(mid, gap, status, rest);
      assert Fields(s)[1] == status;
    }
  }

  /**
   * For every two lines: the negotiation is finished if and only if the request's first word is
   * PLAY or RECORD and the response's second word starts with a 2.
   */
  lemma FinishedIff(request: string, response: string)
    ensures NegotiationFinished(request, response) <==> Finishes(request, response)
  {
    hide PlayRequest, SuccessResponse, Fields;
    PlayIff(request);
    SuccessIff(response);
  }

  // Numbers

  predicate AllZeros(s: string) {
    forall i :: 0 <= i < |s| ==> s[i] == '0'
  }

  /** A decimal numeral: an optional sign, any zeros, and the digits of n. */
  predicate NumeralOf(s: string, sign: string, zeros: string, n: nat) {
    && s == sign + (zeros + Decimal(n))
    && (sign == "" || sign == "+" || sign == "-") && AllZeros(zeros)
  }

  /** The number that a numeral denotes. */
  ghost predicate Denotes(s: string, v: int) {
    exists sign, zeros, n :: NumeralOf(s, sign, zeros, n) && v == if sign == "-" then 0 - n as int else n as int
  }

  lemma {:induction false} DigitsOfPadded(zeros: string, n: nat)
    requires AllZeros(zeros)
    ensures Digits(zeros + Decimal(n)) == Some(n)
    decreases n
  {
    var s := zeros + Decimal(n);
    var last := |s| - 1;
    if n >= 10 {
      assert s[..last] == zeros + Decimal(n / 10) && s[last] == Decimal(n)[|Decimal(n)| - 1];
      DigitsOfPadded(zeros, n / 10);
    } else {
      assert Decimal(n) == [s[last]] && s[..last] == zeros;
      DigitsOfZeros(zeros);
    }
  }

  lemma {:induction false} DigitsOfZeros(zeros: string)
    requires AllZeros(zeros)
    ensures zeros != "" ==> Digits(zeros) == Some(0)
  {
    if zeros != "" {
      DigitsOfZeros(zeros[..|zeros| - 1]);
    }
  }

  lemma {:induction false} DigitsArePadded(s: string) returns (zeros: string)
    requires Digits(s).Some?
    ensures AllZeros(zeros) && s == zeros + Decimal(Digits(s).value)
  {
    var last := |s| - 1;
    var digit := (s[last] - '0') as int;
    assert s == s[..last] + [s[last]];
    assert Decimal(digit) == [s[last]];
    if |s| == 1 {
      zeros := "";
    } else {
      var rest := Digits(s[..last]).value;
      zeros := DigitsArePadded(s[..last]);
      if rest == 0 {
        assert Decimal(0) == "0";
        zeros := zeros + "0";
      } else {
        assert (10 * rest + digit) / 10 == rest && (10 * rest + digit) % 10 == digit;
        assert Decimal(10 * rest + digit) == Decimal(rest) + [s[last]];
      }
    }
  }

  lemma DigitsStart(s: string)
    requires Digits(s).Some?
    ensures s != "" && s[0] != '+' && s[0] != '-'
  {
    if |s| > 1 {
      DigitsStart(s[..|s| - 1]);
    }
  }

  /** The sign of a text that ParseInt takes apart, and its digits. */
  lemma ParseIntDenotes(s: string)
    requires ParseInt(s).Some?
    ensures Denotes(s, ParseInt(s).value)
  {
    var signed := s[0] == '-' || s[0] == '+';
    var sign, digits := if signed then s[..1] else "", if signed then s[1..] else s;
    var zeros := DigitsArePadded(digits);
    assert s == sign + digits;
    assert NumeralOf(s, sign, zeros, Digits(digits).value);
  }

  lemma DenotedParses(s: string, sign: string, zeros: string, n: nat)
    requires NumeralOf(s, sign, zeros, n)
    ensures var v := if sign == "-" then 0 - n as int else n as int;
            ParseInt(s) == if -0x8000_0000_0000_0000 <= v < 0x8000_0000_0000_0000 then Some(v) else None
  {
    hide Digits, Decimal;
    var digits := zeros + Decimal(n);
    DigitsOfPadded(zeros, n);
    DigitsStart(digits);
    if sign == "" {
      assert s == digits;
    } else {
      assert s[0] == sign[0] && s[1..] == digits;
    }
  }

  /** ParseInt accepts exactly the numerals of 64-bit numbers, and returns the number. */
  lemma ParseIntIff(s: string, v: int)
    ensures ParseInt(s) == Some(v) <==> Denotes(s, v) && -0x8000_0000_0000_0000 <= v < 0x8000_0000_0000_0000
  {
    if ParseInt(s) == Some(v) {
      ParseIntDenotes(s);
    }
    if sign, zeros, n :| NumeralOf(s, sign, zeros, n) && v == if sign == "-" then 0 - n as int else n as int {
      DenotedParses(s, sign, zeros, n);
    }
  }

  // Content-Length

  lemma {:induction false} LeftPadding(s: string) returns (pad: string)
    ensures AllSpace(pad) && s == pad + TrimLeft(s) && (TrimLeft(s) != "" ==> !IsSpace(TrimLeft(s)[0]))
  {
    pad := "";
    if s != "" && IsSpace(s[0]) {
      var rest := LeftPadding(s[1..]);
      pad := [s[0]] + rest;
      assert s == [s[0]] + s[1..];
    }
  }

  lemma {:induction false} RightPadding(s: string) returns (pad: string)
    ensures AllSpace(pad) && s == TrimRight(s) + pad
    ensures TrimRight(s) != "" ==> s[0] == TrimRight(s)[0] && !IsSpace(TrimRight(s)[|TrimRight(s)| - 1])
  {
    pad := "";
    if s != "" && IsSpace(s[|s| - 1]) {
      var rest := RightPadding(s[..|s| - 1]);
      pad := rest + [s[|s| - 1]];
      assert s == s[..|s| - 1] + [s[|s| - 1]];
    }
  }

  /** t is s without the white space around it. */
  predicate PaddedBy(s: string, left: string, t: string, right: string) {
    s == left + t + right && AllSpace(left) && Tight(t) && AllSpace(right)
  }

  lemma TrimSpaceIff(s: string, t: string)
    ensures TrimSpace(s) == t <==> exists left, right :: PaddedBy(s, left, t, right)
  {
    var left := LeftPadding(s);
    var right := RightPadding(TrimLeft(s));
    assert s == left + TrimSpace(s) + right;
    assert PaddedBy(s, left, TrimSpace(s), right);
    if left, right :| PaddedBy(s, left, t, right) {
      TrimSpacePadded(left, t, right);
    }
  }

  /** A header line: a name, which may have white space around it, a colon and a value. */
  predicate NamedLine(line: string, left: string, name: string, right: string, value: string) {
    line == left + name + right + (":" + value) && AllSpace(left) && Tight(name) && AllSpace(right) && ':' !in name
  }

  lemma NoColonInSpace(s: string)
    requires AllSpace(s)
    ensures ':' !in s
  {
  }

  lemma NamedLineIs(line: string, left: string, name: string, right: string, value: string)
    requires NamedLine(line, left, name, right, value)
    ensures ContentLength(line) == if AnyCase(name, "CONTENT-LENGTH") then Some(TrimSpace(value)) else None
  {
    var front := left + name + right;
    NoColonInSpace(left);
    NoColonInSpace(right);
    assert line[|front|] == ':' && line[..|front|] == front && line[|front| + 1..] == value;
    FindAt(line, ':', |front|);
    TrimSpacePadded(left, name, right);
    LowerIsAnyCase(name);
  }

  /** A line without a colon declares nothing, whatever it says. */
  lemma NoColon(line: string)
    requires ':' !in line
    ensures ContentLength(line) == None
  {
  }

  /** Every line with a colon is such a line. */
  lemma ColonLine(line: string) returns (left: string, name: string, right: string, value: string)
    requires ':' in line
    ensures NamedLine(line, left, name, right, value)
  {
    var i := Find(line, ':');
    var front := line[..i];
    left := LeftPadding(front);
    right := RightPadding(TrimLeft(front));
    name, value := TrimSpace(front), line[i + 1..];
    assert front == left + name + right;
    assert line == front + (":" + value);
    assert forall c :: c in name ==> c in front;
  }

  /**
   * What one header line does to the declared length. A line of any other name leaves it; a
   * Content-Length line sets it to the number its value denotes, if that is a 64-bit number that
   * is not negative and nothing was declared before; else the message is refused.
   */
  lemma NoteIff(declared: Option<nat>, line: string, left: string, name: string, right: string, value: string, n: nat)
    requires NamedLine(line, left, name, right, value)
    ensures !AnyCase(name, "CONTENT-LENGTH") ==> Note(declared, line) == Some(declared)
    ensures AnyCase(name, "CONTENT-LENGTH") ==> Note(declared, line) != Some(None)
    ensures AnyCase(name, "CONTENT-LENGTH") ==>
              (Note(declared, line) == Some(Some(n)) <==>
               declared == None && n < 0x8000_0000_0000_0000 && Denotes(TrimSpace(value), n))
  {
    hide Denotes, ParseInt, ContentLength, AnyCase;
    NamedLineIs(line, left, name, right, value);
    ParseIntIff(TrimSpace(value), n);
  }

  // Start lines

  /** The start line of a message, whatever follows, is its first line without the white space around it. */
  lemma StartLineIs(s: string, n: nat, start: string, lines: seq<string>, body: string)
    requires n <= |s| && MadeOf(s[..n], start, lines, body)
    ensures exists left, right :: PaddedBy(start, left, StartLine(s), right)
  {
    hide MessageLength, Declares, IsHeader;
    assert n == |start| + |Joined(lines)| + |body|;
    Pieces(s, start, Joined(lines), body);
    LineEndIs(s, 0, |start|);
    assert s[..|start|] == s[0..|start|];
    TrimSpaceIff(start, StartLine(s));
  }
}

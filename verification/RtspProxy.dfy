/**
 * The RTSP proxy: buffered readers, writers that may be short or fail, copying one message,
 * and the request and response loop up to the handover to raw copying.
 */
module RtspProxy {
  import opened Options
  import opened Rtsp
  import opened Negotiation

  /** A bufio.Reader of 64 KiB: what it holds, and what the connection still delivers before it ends. */
  class Source {
    var buf: string
    var net: string

    ghost predicate Valid()
      reads this
    {
      |buf| <= MAX_HEADER
    }

    /** Everything not yet consumed. */
    function Pending(): string
      reads this
    {
      buf + net
    }

    constructor (bytes: string)
      ensures Valid() && Pending() == bytes
    {
      buf, net := "", bytes;
    }

    /** Receive some bytes, as many as the connection happens to deliver. */
    method Fill()
      requires Valid() && net != "" && |buf| < MAX_HEADER
      modifies this
      ensures Valid() && Pending() == old(Pending()) && |net| < |old(net)| && buf != ""
    {
      var n: nat :| 1 <= n <= |net| && |buf| + n <= MAX_HEADER;
      assert buf + net == (buf + net[..n]) + net[n..];
      buf, net := buf + net[..n], net[n..];
    }

    /** readRTSPLine: one line, if it fits the buffer; else whatever is buffered is lost. */
    method ReadLine() returns (line: Option<string>)
      requires Valid()
      modifies this
      ensures Valid()
      ensures match LineEnd(old(Pending()), 0) {
                case Some(end) => line == Some(old(Pending())[..end]) && Pending() == old(Pending())[end..]
                case None => line == None && IsSuffix(Pending(), old(Pending()))
              }
    {
      while true
        invariant Valid() && Pending() == old(Pending())
        decreases |net|
      {
        var i := Find(buf, '\n');
        if i < |buf| {
          LineInBuffer(buf, net, i);
          line := Some(buf[..i + 1]);
          assert Pending()[..i + 1] == buf[..i + 1] && Pending()[i + 1..] == buf[i + 1..] + net;
          buf := buf[i + 1..];
          return;
        }
        if net == "" || |buf| == MAX_HEADER {
          NoLineInBuffer(buf, net);
          assert Pending()[|buf|..] == net;
          buf := "";
          return None;
        }
        Fill();
      }
    }

    /** Read: between one and max bytes, or none at the end. */
    method Read(max: nat) returns (chunk: string)
      requires Valid() && max > 0
      modifies this
      ensures Valid()
      ensures |chunk| <= max && old(Pending()) == chunk + Pending()
      ensures chunk == "" <==> old(Pending()) == ""
    {
      if buf == "" {
        if net == "" {
          return "";
        }
        Fill();
      }
      var n: nat :| 1 <= n <= |buf| && n <= max;
      chunk, buf := buf[..n], buf[n..];
    }
  }

  ghost predicate IsSuffix(t: string, s: string) {
    |t| <= |s| && t == s[|s| - |t|..]
  }

  lemma LineInBuffer(buf: string, net: string, i: nat)
    requires i == Find(buf, '\n') < |buf| <= MAX_HEADER
    ensures LineEnd(buf + net, 0) == Some(i + 1)
  {
    assert (buf + net)[0..i + 1] == buf[..i + 1];
    LineEndIs(buf + net, 0, i + 1);
  }

  lemma NoLineInBuffer(buf: string, net: string)
    requires Find(buf, '\n') == |buf| <= MAX_HEADER && (net == "" || |buf| == MAX_HEADER)
    ensures LineEnd(buf + net, 0) == None
  {
  }

  /**
   * A connection that is written to, or a buffer, which is reliable; faltered means that some
   * write failed or was short.
   */
  class Sink {
    const reliable: bool
    var out: string
    var faltered: bool

    constructor (reliable: bool)
      ensures this.reliable == reliable && out == "" && !faltered
    {
      this.reliable := reliable;
      out, faltered := "", false;
    }

    /** Writes may have failed since, but not those to a buffer. */
    twostate predicate Used()
      reads this
    {
      (old(faltered) ==> faltered) && (reliable ==> faltered == old(faltered))
    }

    method Write(data: string) returns (n: nat, ok: bool)
      modifies this
      ensures n <= |data| && out == old(out) + data[..n]
      ensures (!ok || n < |data| ==> faltered) && Used()
    {
      n :| n <= |data|;
      ok := *;
      if reliable {
        n, ok := |data|, true;
      }
      out := out + data[..n];
      faltered := faltered || !ok || n < |data|;
    }

    /** writeAll: write until everything is written, or a write fails or makes no progress. */
    method WriteAll(data: string) returns (ok: bool, ghost n: nat)
      modifies this
      ensures n <= |data| && out == old(out) + data[..n]
      ensures (ok ==> n == |data|) && (!ok ==> faltered) && Used()
    {
      var rest := data;
      n := 0;
      while |rest| > 0
        invariant n <= |data| && rest == data[n..] && out == old(out) + data[..n] && Used()
        decreases |rest|
      {
        var k, written := Write(rest);
        assert data[..n] + rest[..k] == data[..n + k];
        n := n + k;
        if !written || k == 0 {
          return false, n;
        }
        rest := rest[k..];
      }
      return true, n;
    }
  }

  // One message

  /** Bytes have moved from src to dst: consumed ones left src, and a prefix of them reached dst. */
  ghost predicate Moved(dst: Sink, src: Source, out: string, input: string, written: nat, consumed: nat)
    reads dst, src
  {
    && written <= consumed <= |input| && src.Valid()
    && dst.out == out + input[..written] && src.Pending() == input[consumed..]
  }

  /** io.CopyN: chunks of any size up to n bytes in all. */
  method CopyN(dst: Sink, src: Source, ghost out: string, ghost input: string, ghost pos: nat, n: nat)
      returns (ok: bool, ghost written: nat, ghost consumed: nat)
    requires Moved(dst, src, out, input, pos, pos)
    modifies dst, src
    ensures Moved(dst, src, out, input, written, consumed)
    ensures ok ==> written == consumed == pos + n
    ensures !ok ==> dst.faltered || |input| < pos + n
    ensures dst.Used()
  {
    var left: nat := n;
    written, consumed := pos, pos;
    while left > 0
      invariant written == consumed == pos + n - left && dst.Used()
      invariant Moved(dst, src, out, input, written, consumed)
      decreases left
    {
      var chunk := src.Read(left);
      if chunk == "" {
        return false, written, consumed;
      }
      consumed := consumed + |chunk|;
      assert chunk == input[written..consumed];
      var k, good := dst.Write(chunk);
      assert input[..written + k] == input[..written] + chunk[..k];
      written := written + k;
      if !good || k < |chunk| {
        return false, written, consumed;
      }
      left := left - k;
    }
    return true, written, consumed;
  }

  lemma LineEndShift(s: string, pos: nat)
    requires pos <= |s|
    ensures LineEnd(s[pos..], 0) == match LineEnd(s, pos) { case None => None case Some(end) => Some(end - pos) }
  {
  }

  lemma WholeMessage(input: string, first: nat, end: nat, declared: Option<nat>, total: nat)
    requires first <= |input| && LineEnd(input, 0) == Some(first)
    requires EndFrom(input, first, None) == WithBody(input, end, declared)
    requires declared.Some? && declared.value <= MAX_BODY && total == end + declared.value
    ensures MessageLength(input) == if total <= |input| then Some(total) else None
    ensures StartLine(input) == TrimSpace(input[0..first])
  {
  }

  lemma NoMessage(input: string)
    requires match LineEnd(input, 0) {
               case None => true
               case Some(first) => first > MAX_HEADER || EndFrom(input, first, None) == None
             }
    ensures MessageLength(input) == None
  {
  }

  /** A line read at pos and written: one step of the header loop. */
  method CopyLine(dst: Sink, src: Source, ghost out: string, ghost input: string, ghost pos: nat, limit: nat)
      returns (line: Option<string>, ghost written: nat, ghost consumed: nat)
    requires Moved(dst, src, out, input, pos, pos)
    modifies dst, src
    ensures Moved(dst, src, out, input, written, consumed)
    ensures line.Some? ==> written == consumed && LineEnd(input, pos) == Some(consumed)
                           && line.value == input[pos..consumed] && |line.value| <= limit
    ensures line.None? ==> dst.faltered || LineEnd(input, pos) == None || LineEnd(input, pos).value - pos > limit
    ensures dst.Used()
  {
    LineEndShift(input, pos);
    written := pos;
    line := src.ReadLine();
    consumed := |input| - |src.Pending()|;
    if line.None? || |line.value| > limit {
      return None, written, consumed;
    }
    assert line.value == input[pos..consumed];
    var ok, n := dst.WriteAll(line.value);
    assert input[..pos + n] == input[..pos] + line.value[..n];
    written := pos + n;
    if !ok {
      line := None;
    }
  }

  /**
   * copyRTSPMessage. Whatever happens, what was written is a prefix of what was consumed; on
   * success both are exactly the message; and it fails only if there is no whole message
   * or a write failed.
   */
  method CopyMessage(dst: Sink, src: Source)
      returns (startLine: Option<string>, ghost written: nat, ghost consumed: nat)
    requires src.Valid()
    modifies dst, src
    ensures Moved(dst, src, old(dst.out), old(src.Pending()), written, consumed)
    ensures startLine.Some? ==> written == consumed && MessageLength(old(src.Pending())) == Some(consumed)
    ensures startLine.Some? ==> startLine.value == StartLine(old(src.Pending()))
    ensures startLine.None? ==> dst.faltered || MessageLength(old(src.Pending())) == None
    ensures dst.Used()
  {
    ghost var out, input := dst.out, src.Pending();
    var start;
    start, written, consumed := CopyLine(dst, src, out, input, 0, MAX_HEADER);
    if start.None? {
      if !dst.faltered {
        NoMessage(input);
      }
      return None, written, consumed;
    }
    ghost var first := consumed;
    startLine, written, consumed := CopyRest(dst, src, out, input, first, start.value);
  }

  /** Everything after the start line. */
  method CopyRest(dst: Sink, src: Source, ghost out: string, ghost input: string, ghost first: nat, start: string)
      returns (startLine: Option<string>, ghost written: nat, ghost consumed: nat)
    requires Moved(dst, src, out, input, first, first) && first <= MAX_HEADER
    requires LineEnd(input, 0) == Some(first) && start == input[0..first]
    modifies dst, src
    ensures Moved(dst, src, out, input, written, consumed)
    ensures startLine.Some? ==> written == consumed && MessageLength(input) == Some(consumed)
    ensures startLine.Some? ==> startLine.value == StartLine(input)
    ensures startLine.None? ==> dst.faltered || MessageLength(input) == None
    ensures dst.Used()
  {
    var declared: Option<nat>;
    declared, written, consumed := CopyHeader(dst, src, out, input, first, |start|);
    if declared.None? || declared.value > MAX_BODY {
      if !dst.faltered {
        NoMessage(input);
      }
      return None, written, consumed;
    }
    WholeMessage(input, first, consumed, declared, consumed + declared.value);
    var ok;
    ok, written, consumed := CopyN(dst, src, out, input, consumed, declared.value);
    startLine := if ok then Some(TrimSpace(start)) else None;
  }

  /** The header loop of copyRTSPMessage: the body length that the header declares. */
  method CopyHeader(dst: Sink, src: Source, ghost out: string, ghost input: string, ghost first: nat, startBytes: nat)
      returns (declared: Option<nat>, ghost written: nat, ghost consumed: nat)
    requires Moved(dst, src, out, input, first, first) && startBytes == first <= MAX_HEADER
    modifies dst, src
    ensures Moved(dst, src, out, input, written, consumed)
    ensures declared.Some? ==> written == consumed && EndFrom(input, first, None) == WithBody(input, consumed, declared)
    ensures declared.None? ==> dst.faltered || EndFrom(input, first, None) == None
    ensures dst.Used()
  {
    var headerBytes := startBytes;
    var seen: Option<nat> := None;
    written, consumed := first, first;
    while true
      invariant written == consumed == headerBytes <= MAX_HEADER && dst.Used()
      invariant Moved(dst, src, out, input, written, consumed)
      invariant EndFrom(input, first, None) == EndFrom(input, consumed, seen)
      decreases MAX_HEADER - headerBytes
    {
      ghost var pos := consumed;
      var line;
      line, written, consumed := CopyLine(dst, src, out, input, pos, MAX_HEADER - headerBytes);
      if line.None? {
        return None, written, consumed;
      }
      headerBytes := headerBytes + |line.value|;
      if Blank(line.value) {
        EndAtBlank(input, pos, consumed, seen);
        return Some(if seen.Some? then seen.value else 0), written, consumed;
      }
      EndAfterLine(input, pos, consumed, seen);
      var noted := Note(seen, line.value);
      if noted.None? {
        return None, written, consumed;
      }
      seen := noted.value;
    }
  }

  // The negotiation

  lemma MovedOn(dst: Sink, src: Source, out: string, input: string, at: nat, written: nat, consumed: nat)
    requires at <= |input| && Moved(dst, src, out + input[..at], input[at..], written, consumed)
    ensures Moved(dst, src, out, input, at + written, at + consumed)
  {
  }

  /** copyRTSPMessage in a stream of which a part has been copied. */
  method CopyNext(dst: Sink, src: Source, ghost out: string, ghost input: string, ghost at: nat)
      returns (startLine: Option<string>, ghost written: nat, ghost consumed: nat)
    requires Moved(dst, src, out, input, at, at)
    modifies dst, src
    ensures Moved(dst, src, out, input, written, consumed)
    ensures startLine.Some? ==> at < written == consumed && MessageLength(input[at..]) == Some(consumed - at)
    ensures startLine.Some? ==> startLine.value == StartLine(input[at..])
    ensures startLine.None? ==> dst.faltered || MessageLength(input[at..]) == None
    ensures dst.Used()
  {
    startLine, written, consumed := CopyMessage(dst, src);
    MovedOn(dst, src, out, input, at, written, consumed);
    written, consumed := at + written, at + consumed;
  }

  /** Bytes written and consumed in one direction. */
  datatype Count = Count(written: nat, consumed: nat)

  /**
   * The loop of proxyRTSP, once the first request is with the device. It hands over exactly
   * when the two streams begin with an exchange that finishes the negotiation, unless a write
   * fails, and then neither side has lost, gained or reordered a byte.
   */
  method Converse(upstream: Sink, fromUpstream: Source, device: Sink, fromDevice: Source, request: string)
      returns (handover: bool, ghost up: Count, ghost dev: Count)
    requires fromUpstream != fromDevice && upstream != device && fromUpstream.Valid() && fromDevice.Valid()
    modifies upstream, fromUpstream, device, fromDevice
    ensures Moved(device, fromUpstream, old(device.out), old(fromUpstream.Pending()), up.written, up.consumed)
    ensures Moved(upstream, fromDevice, old(upstream.out), old(fromDevice.Pending()), dev.written, dev.consumed)
    ensures handover ==> up.written == up.consumed && dev.written == dev.consumed
    ensures handover ==> Negotiate(request, old(fromUpstream.Pending()), old(fromDevice.Pending())) ==
                         Some(Split(up.consumed, dev.consumed))
    ensures !handover ==> upstream.faltered || device.faltered ||
                          Negotiate(request, old(fromUpstream.Pending()), old(fromDevice.Pending())) == None
  {
    hide MessageLength, StartLine, NegotiationFinished, Negotiate, Underway;
    ghost var upIn, devIn := fromUpstream.Pending(), fromDevice.Pending();
    var requestLine := request;
    up, dev := Count(0, 0), Count(0, 0);
    Begins(request, upIn, devIn);
    while true
      invariant Moved(device, fromUpstream, old(device.out), upIn, up.written, up.consumed)
      invariant Moved(upstream, fromDevice, old(upstream.out), devIn, dev.written, dev.consumed)
      invariant up.written == up.consumed && dev.written == dev.consumed
      invariant Underway(request, upIn, devIn, requestLine, up.consumed, dev.consumed)
      decreases |devIn| - dev.consumed
    {
      ghost var u, d := up.consumed, dev.consumed;
      ghost var w, c;
      var responseLine;
      responseLine, w, c := CopyNext(upstream, fromDevice, old(upstream.out), devIn, d);
      dev := Count(w, c);
      if responseLine.None? {
        if !upstream.faltered {
          Breaks(request, upIn, devIn, requestLine, u, d);
        }
        return false, up, dev;
      }
      if NegotiationFinished(requestLine, responseLine.value) {
        Ends(request, upIn, devIn, requestLine, u, d, c);
        return true, up, dev;
      }
      var next;
      next, w, c := CopyNext(device, fromUpstream, old(device.out), upIn, u);
      up := Count(w, c);
      if next.None? {
        if !device.faltered {
          Breaks(request, upIn, devIn, requestLine, u, d);
        }
        return false, up, dev;
      }
      GoesOn(request, upIn, devIn, requestLine, u, d, up.consumed, dev.consumed);
      requestLine := next.value;
    }
  }

  /** proxyRTSP up to the handover: the first request, then the rest of the negotiation. */
  method Proxy(upstream: Sink, fromUpstream: Source, device: Sink, fromDevice: Source, first: string, request: string)
      returns (handover: bool)
    requires fromUpstream != fromDevice && upstream != device && fromUpstream.Valid() && fromDevice.Valid()
    modifies upstream, fromUpstream, device, fromDevice
    ensures handover ==> device.out + fromUpstream.Pending() == old(device.out) + first + old(fromUpstream.Pending())
    ensures handover ==> upstream.out + fromDevice.Pending() == old(upstream.out) + old(fromDevice.Pending())
    ensures handover ==> Negotiate(request, old(fromUpstream.Pending()), old(fromDevice.Pending())).Some?
    ensures !handover ==> upstream.faltered || device.faltered ||
                          Negotiate(request, old(fromUpstream.Pending()), old(fromDevice.Pending())) == None
    ensures device.out <= old(device.out) + first + old(fromUpstream.Pending())
    ensures upstream.out <= old(upstream.out) + old(fromDevice.Pending())
  {
    hide Negotiate;
    var ok, n := device.WriteAll(first);
    if !ok {
      return false;
    }
    assert first[..n] == first;
    ghost var upIn, devIn := fromUpstream.Pending(), fromDevice.Pending();
    ghost var up, dev;
    handover, up, dev := Converse(upstream, fromUpstream, device, fromDevice, request);
    assert upIn == upIn[..up.consumed] + upIn[up.consumed..];
    assert devIn == devIn[..dev.consumed] + devIn[dev.consumed..];
  }

  // One connection of the bridge

  /** Upstream starts with a valid request, and the two streams with an exchange that finishes the negotiation. */
  predicate Negotiable(up: string, dev: string) {
    match MessageLength(up)
    case None => false
    case Some(n) => ValidRequest(StartLine(up)) && Negotiate(StartLine(up), up[n..], dev).Some?
  }

  /**
   * handle: the first request goes to a buffer, and only a valid one opens a realm and is
   * forwarded. The device gets the upstream bytes from the very first one on, and at the
   * handover each side has got, or will be given, everything.
   */
  method Handle(upstream: Sink, fromUpstream: Source, device: Sink, fromDevice: Source, realmOpens: bool)
      returns (handover: bool)
    requires fromUpstream != fromDevice && upstream != device && fromUpstream.Valid() && fromDevice.Valid()
    modifies upstream, fromUpstream, device, fromDevice
    ensures handover ==> device.out + fromUpstream.Pending() == old(device.out) + old(fromUpstream.Pending())
    ensures handover ==> upstream.out + fromDevice.Pending() == old(upstream.out) + old(fromDevice.Pending())
    ensures device.out <= old(device.out) + old(fromUpstream.Pending())
    ensures upstream.out <= old(upstream.out) + old(fromDevice.Pending())
    ensures handover ==> realmOpens && Negotiable(old(fromUpstream.Pending()), old(fromDevice.Pending()))
    ensures !handover ==> !realmOpens || upstream.faltered || device.faltered ||
                          !Negotiable(old(fromUpstream.Pending()), old(fromDevice.Pending()))
  {
    hide MessageLength, StartLine, ValidRequest, Negotiate;
    var buffer := new Sink(true);
    ghost var up := fromUpstream.Pending();
    var request, written, consumed := CopyMessage(buffer, fromUpstream);
    if request.None? || !ValidRequest(request.value) || !realmOpens {
      return false;
    }
    assert up == buffer.out + fromUpstream.Pending();
    handover := Proxy(upstream, fromUpstream, device, fromDevice, buffer.out, request.value);
  }
}

/** One Conn: fragmenting writes, the bounded inbound queue, and reads with any buffer size. */
module ConnStream {
  import opened Bytes
  import opened Codec

  const MAX_PAYLOAD := 1280
  const QUEUE_CAP := 4096

  // Writing

  function Min(a: nat, b: nat): nat {
    if a < b then a else b
  }

  /** How a write is cut into PTCP payloads. */
  function Fragments(p: seq<Byte>): seq<seq<Byte>> {
    if p == [] then []
    else
      var n := Min(|p|, MAX_PAYLOAD);
      [p[..n]] + Fragments(p[n..])
  }

  lemma {:induction false} FragmentsFlatten(p: seq<Byte>)
    ensures Flatten(Fragments(p)) == p
  {
    if p != [] {
      var n := Min(|p|, MAX_PAYLOAD);
      FragmentsFlatten(p[n..]);
      assert Fragments(p)[1..] == Fragments(p[n..]);
      assert p[..n] + p[n..] == p;
    }
  }

  lemma {:induction false} FragmentSizes(p: seq<Byte>, i: nat)
    requires i < |Fragments(p)|
    ensures 1 <= |Fragments(p)[i]| <= 1280
    ensures i + 1 < |Fragments(p)| ==> |Fragments(p)[i]| == 1280
  {
    var n := Min(|p|, MAX_PAYLOAD);
    if i > 0 {
      FragmentSizes(p[n..], i - 1);
    }
  }

  function PayloadBodies(realm: U32, frags: seq<seq<Byte>>): seq<Body> {
    seq(|frags|, i requires 0 <= i < |frags| => Payload(realm, frags[i]))
  }

  lemma PayloadBodiesSnoc(realm: U32, frags: seq<seq<Byte>>, f: seq<Byte>)
    ensures PayloadBodies(realm, frags + [f]) == PayloadBodies(realm, frags) + [Payload(realm, f)]
  {
  }

  /** The k first fragments hold the n first bytes of p. */
  ghost predicate Cut(p: seq<Byte>, k: nat, n: nat) {
    && k <= |Fragments(p)| && n <= |p|
    && Fragments(p)[k..] == Fragments(p[n..])
    && Flatten(Fragments(p)[..k]) == p[..n]
  }

  lemma NextCut(p: seq<Byte>, k: nat, n: nat)
    requires Cut(p, k, n) && n < |p|
    ensures var m := n + Min(|p| - n, MAX_PAYLOAD);
            && k < |Fragments(p)| && Fragments(p)[k] == p[n..m]
            && Cut(p, k + 1, m)
  {
    hide Flatten;
    var rest := p[n..];
    var len := Min(|rest|, MAX_PAYLOAD);
    assert Fragments(rest) == [rest[..len]] + Fragments(rest[len..]);
    assert Fragments(p)[k] == Fragments(p)[k..][0] == rest[..len] == p[n..n + len];
    assert Fragments(p)[..k + 1] == Fragments(p)[..k] + [Fragments(p)[k]];
    FlattenSnoc(Fragments(p)[..k], Fragments(p)[k]);
    assert Fragments(p)[k + 1..] == Fragments(p)[k..][1..] == Fragments(rest[len..]);
    assert rest[len..] == p[n + len..];
    assert p[..n] + p[n..n + len] == p[..n + len];
  }

  /** The tunnel as a Conn sees it: it takes a packet, or reports an error and takes nothing. */
  class Outbox {
    var sent: seq<Body>

    constructor ()
      ensures sent == []
    {
      sent := [];
    }

    method SendPacketFor(b: Body) returns (ok: bool)
      modifies this
      ensures sent == if ok then old(sent) + [b] else old(sent)
    {
      ok := *;
      if ok {
        sent := sent + [b];
      }
    }
  }

  /**
   * Conn.Write: the packets sent are the first k fragments of p, n is the number of
   * bytes in them, and there is no error exactly when that is all of p.
   */
  method Write(link: Outbox, realm: U32, closed: bool, tunnelClosed: bool, p: seq<Byte>)
      returns (n: nat, ok: bool, ghost k: nat)
    modifies link
    ensures k <= |Fragments(p)|
    ensures link.sent == old(link.sent) + PayloadBodies(realm, Fragments(p)[..k])
    ensures n <= |p| && Flatten(Fragments(p)[..k]) == p[..n]
    ensures ok <==> k == |Fragments(p)| && !closed && !tunnelClosed
    ensures ok ==> n == |p|
    ensures closed || tunnelClosed ==> k == 0
  {
    n, k := 0, 0;
    if closed || tunnelClosed {
      return n, false, 0;
    }
    var rest := p;
    assert p[0..] == p;
    while |rest| > 0
      invariant Cut(p, k, n) && rest == p[n..]
      invariant link.sent == old(link.sent) + PayloadBodies(realm, Fragments(p)[..k])
      decreases |rest|
    {
      var chunk := rest;
      if |chunk| > MAX_PAYLOAD {
        chunk := rest[..MAX_PAYLOAD];
      }
      NextCut(p, k, n);
      assert chunk == Fragments(p)[k];
      var more := link.SendPacketFor(Payload(realm, chunk));
      if !more {
        return n, false, k;
      }
      assert Fragments(p)[..k + 1] == Fragments(p)[..k] + [chunk];
      PayloadBodiesSnoc(realm, Fragments(p)[..k], chunk);
      rest := rest[|chunk|..];
      n, k := n + |chunk|, k + 1;
    }
    return n, true, k;
  }

  // Reading

  /** What Read works on: Conn.closed, the data channel and the unread rest of a payload. */
  datatype Buf = Buf(closed: bool, queue: seq<seq<Byte>>, readBuf: seq<Byte>)

  function Content(b: Buf): seq<Byte> {
    b.readBuf + Flatten(b.queue)
  }

  datatype ReadResult = Data(bytes: seq<Byte>) | Eof | DeadlineExceeded | Park

  /** One pass of Read with a buffer of max bytes and no deadline in the way. */
  function ReadPass(b: Buf, max: nat): (ReadResult, Buf) {
    if b.readBuf != [] then
      var n := Min(max, |b.readBuf|);
      (Data(b.readBuf[..n]), b.(readBuf := b.readBuf[n..]))
    else if b.queue != [] then
      var data := b.queue[0];
      var n := Min(max, |data|);
      (Data(data[..n]), b.(queue := b.queue[1..], readBuf := data[n..]))
    else if b.closed then (Eof, b)
    else (Park, b)
  }

  /**
   * What a pass hands out: as much as fits of the unread rest, or else of the first payload in
   * the queue; EOF and waiting exactly when there is neither.
   */
  lemma ReadPassHandsOut(b: Buf, max: nat)
    ensures var (r, b') := ReadPass(b, max);
            var first := if b.readBuf != [] then b.readBuf else if b.queue != [] then b.queue[0] else [];
            && (r.Data? <==> b.readBuf != [] || b.queue != [])
            && (r.Data? ==> r.bytes <= first && |r.bytes| == if max < |first| then max else |first|)
            && (r.Eof? <==> b.readBuf == [] && b.queue == [] && b.closed)
            && (r.Park? <==> b.readBuf == [] && b.queue == [] && !b.closed)
            && !r.DeadlineExceeded? && b'.closed == b.closed
  {
  }

  /** A pass hands out the next bytes and loses none. */
  lemma ReadPassConserves(b: Buf, max: nat)
    ensures var (r, b') := ReadPass(b, max);
            && (r.Data? ==> |r.bytes| <= max && r.bytes + Content(b') == Content(b))
            && (!r.Data? ==> b' == b)
            && (r.Eof? <==> b.closed && b.readBuf == [] && b.queue == [])
            && (r.Park? <==> !b.closed && b.readBuf == [] && b.queue == [])
  {
  }

  /** What can wake a parked Read. */
  datatype Wakeup = Arrival(data: seq<Byte>) | Closing | DeadlineMoved(expired: bool) | TimerFired

  function Arrivals(ws: seq<Wakeup>): seq<Byte> {
    if ws == [] then []
    else (if ws[0].Arrival? then ws[0].data else []) + Arrivals(ws[1..])
  }

  /** What a parked Read answers to the wakeup that ends it; a later deadline ends none. */
  predicate Woken(w: Wakeup, r: ReadResult, max: nat) {
    match w
    case Arrival(data) => r == Data(data[..Min(max, |data|)])
    case Closing => r == Eof
    case TimerFired => r == DeadlineExceeded
    case DeadlineMoved(expired) => r == if expired then DeadlineExceeded else Park
  }

  class Conn {
    var closed: bool
    var dataCh: seq<seq<Byte>>
    var readBuf: seq<Byte>

    constructor ()
      ensures View() == Buf(false, [], [])
    {
      closed, dataCh, readBuf := false, [], [];
    }

    function View(): Buf
      reads this
    {
      Buf(closed, dataCh, readBuf)
    }

    /** The reader's non-blocking send. */
    method Offer(data: seq<Byte>) returns (ok: bool)
      modifies this
      ensures ok <==> |old(dataCh)| < 4096
      ensures View() == if ok then old(View()).(queue := old(dataCh) + [data]) else old(View())
      ensures ok ==> Content(View()) == old(Content(View())) + data
    {
      ok := |dataCh| < QUEUE_CAP;
      if ok {
        dataCh := dataCh + [data];
        FlattenSnoc(old(dataCh), data);
      }
    }

    method ReadData(max: nat, data: seq<Byte>) returns (bytes: seq<Byte>)
      modifies this
      ensures |bytes| == Min(max, |data|)
      ensures readBuf == old(readBuf) + data[|bytes|..] && bytes == data[..|bytes|]
      ensures closed == old(closed) && dataCh == old(dataCh)
    {
      var n := Min(max, |data|);
      bytes := data[..n];
      if n < |data| {
        readBuf := readBuf + data[n..];
      }
    }

    /** One pass of the loop of Read, up to the select. */
    method Pass(max: nat, expired: bool) returns (r: ReadResult)
      modifies this
      ensures if expired && !old(closed) && old(readBuf) == []
              then r == DeadlineExceeded && View() == old(View())
              else (r, View()) == ReadPass(old(View()), max)
    {
      if |readBuf| > 0 {
        var n := Min(max, |readBuf|);
        r := Data(readBuf[..n]);
        readBuf := readBuf[n..];
        return;
      }
      if expired && !closed {
        return DeadlineExceeded;
      }
      if |dataCh| > 0 {
        var data := dataCh[0];
        dataCh := dataCh[1..];
        var bytes := ReadData(max, data);
        assert readBuf == data[|bytes|..];
        return Data(bytes);
      }
      return if closed then Eof else Park;
    }

    /**
     * Conn.Read with a buffer of max bytes, woken by ws while it is parked. The bytes
     * handed out and the bytes kept are the bytes that were there and those that
     * arrived, in order; EOF and a deadline come only with nothing handed out and nothing
     * lost; EOF comes only when closed and empty; and what is there on entry is handed
     * out before any EOF.
     */
    method Read(max: nat, expiredOnEntry: bool, ws: seq<Wakeup>) returns (r: ReadResult, ghost used: nat)
      modifies this
      ensures used <= |ws|
      ensures (if r.Data? then r.bytes else []) + Content(View()) == old(Content(View())) + Arrivals(ws[..used])
      ensures r.Data? ==> |r.bytes| <= max
      ensures r.Eof? ==> closed && Content(View()) == []
      ensures old(readBuf) != [] || (old(dataCh) != [] && (old(closed) || !expiredOnEntry)) ==>
                (r, View()) == ReadPass(old(View()), max)
      ensures used == 0 && r.DeadlineExceeded? ==> expiredOnEntry
      ensures used > 0 ==> Woken(ws[used - 1], r, max) && forall i :: 0 <= i < used - 1 ==> ws[i] == DeadlineMoved(false)
      ensures r.Park? ==> used == |ws| && !closed && Content(View()) == []
    {
      ReadPassConserves(View(), max);
      r := Pass(max, expiredOnEntry);
      used := 0;
      assert ws[..0] == [];
      if r.Park? {
        r, used := Wait(max, ws);
      }
    }

    /** The select of Read, and the passes it leads back to, once there is nothing to hand out. */
    method Wait(max: nat, ws: seq<Wakeup>) returns (r: ReadResult, ghost used: nat)
      requires View() == Buf(false, [], [])
      modifies this
      ensures used <= |ws|
      ensures (if r.Data? then r.bytes else []) + Content(View()) == Arrivals(ws[..used])
      ensures r.Data? ==> |r.bytes| <= max
      ensures r.Eof? ==> closed && Content(View()) == []
      ensures used == 0 ==> r.Park?
      ensures used > 0 ==> Woken(ws[used - 1], r, max) && forall i :: 0 <= i < used - 1 ==> ws[i] == DeadlineMoved(false)
      ensures r.Park? ==> used == |ws| && !closed && Content(View()) == []
    {
      assert ws[..0] == [] && Arrivals([]) == [];
      hide Arrivals;
      for i := 0 to |ws|
        invariant View() == Buf(false, [], []) && Arrivals(ws[..i]) == []
        invariant forall j :: 0 <= j < i ==> ws[j] == DeadlineMoved(false)
      {
        used := i + 1;
        assert ws[..i + 1] == ws[..i] + [ws[i]];
        ArrivalsSnoc(ws[..i], ws[i]);
        match ws[i]
        case Arrival(data) =>
          var bytes := ReadData(max, data);
          assert Content(View()) == data[|bytes|..] && bytes + data[|bytes|..] == data;
          return Data(bytes), used;
        case Closing =>
          closed := true;
          r := Pass(max, false);
          return r, used;
        case DeadlineMoved(expired) =>
          r := Pass(max, expired);
          if !r.Park? {
            return r, used;
          }
        case TimerFired =>
          return DeadlineExceeded, used;
      }
      return Park, |ws|;
    }
  }

  lemma {:induction false} ArrivalsSnoc(ws: seq<Wakeup>, w: Wakeup)
    ensures Arrivals(ws + [w]) == Arrivals(ws) + if w.Arrival? then w.data else []
  {
    if ws == [] {
      assert ws + [w] == [w] && [w][1..] == [];
    } else {
      assert (ws + [w])[1..] == ws[1..] + [w];
      ArrivalsSnoc(ws[1..], w);
    }
  }
}

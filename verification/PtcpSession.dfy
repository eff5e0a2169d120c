/** The PTCP session counters of one endpoint. */
module PtcpSession {
  import opened Bytes
  import opened Codec

  datatype Counters = Counters(
    sent: U32, recv: U32, count: U32, id: U32, rmid: U32,
    peerSent: U32, peerRecv: U32, peerRMID: U32)

  const FRESH := Counters(0, 0, 0, 0, 0, 0, 0, 0)

  const SYNC_PID: U32 := 0x0002_FFFF

  /** The PID of the next packet: SYNC has its own, every other body counts down in 16 bits. */
  function NextPid(c: Counters, body: Body): U32 {
    if body.Sync? then SYNC_PID else 0xFFFF - c.count % 0x1_0000
  }

  function NextPacket(c: Counters, body: Body): Packet {
    Packet(Header(c.sent, c.recv, NextPid(c, body), c.id, c.rmid), body)
  }

  function AfterSend(c: Counters, body: Body): Counters {
    c.(sent := Wrap32(c.sent + Len(body)),
       id := Wrap32(c.id + 1),
       count := if body.Sync? then c.count else Wrap32(c.count + 1))
  }

  function AfterRecv(c: Counters, p: Packet): Counters {
    c.(recv := Wrap32(c.recv + Len(p.body)),
       rmid := p.header.lmid,
       peerSent := p.header.sent,
       peerRecv := p.header.recv,
       peerRMID := p.header.rmid)
  }

  datatype Stats = Stats(sent: U32, recv: U32, lmid: U32, peerSent: U32, peerRecv: U32, peerRMID: U32)

  function Snapshot(c: Counters): Stats {
    Stats(c.sent, c.recv, c.id, c.peerSent, c.peerRecv, c.peerRMID)
  }

  /** int64(int32(a - b)): the distance of two wrapping counters as a signed number. */
  function Delta(a: U32, b: U32): int {
    Signed32(Wrap32(a - b))
  }

  function OutBytes(st: Stats): int { Delta(st.sent, st.peerRecv) }
  function InBytes(st: Stats): int { Delta(st.peerSent, st.recv) }

  /** Wrapping counters give back the distance of the true ones exactly when it fits an int32. */
  lemma DeltaIsDistance(x: int, y: int)
    ensures Delta(Wrap32(x), Wrap32(y)) == x - y <==> -TWO_31 <= x - y < TWO_31
  {
  }

  lemma WrapAdd(x: int, y: int)
    ensures Wrap32(Wrap32(x) + y) == Wrap32(x + y)
  {
  }

  class Session {
    var sent: U32
    var recv: U32
    var count: U32
    var id: U32
    var rmid: U32
    var peerSent: U32
    var peerRecv: U32
    var peerRMID: U32

    function View(): Counters
      reads this
    {
      Counters(sent, recv, count, id, rmid, peerSent, peerRecv, peerRMID)
    }

    constructor ()
      ensures View() == FRESH
    {
      sent, recv, count, id, rmid := 0, 0, 0, 0, 0;
      peerSent, peerRecv, peerRMID := 0, 0, 0;
    }

    method Send(body: Body) returns (p: Packet)
      modifies this
      ensures p == NextPacket(old(View()), body)
      ensures View() == AfterSend(old(View()), body)
    {
      var pid: U32 := 0xFFFF - count % 0x1_0000;
      if body.Sync? {
        pid := SYNC_PID;
      }
      p := Packet(Header(sent, recv, pid, id, rmid), body);
      sent := Wrap32(sent + Len(body));
      id := Wrap32(id + 1);
      if !body.Sync? {
        count := Wrap32(count + 1);
      }
    }

    method Recv(p: Packet)
      modifies this
      ensures View() == AfterRecv(old(View()), p)
    {
      recv := Wrap32(recv + Len(p.body));
      rmid := p.header.lmid;
      peerSent := p.header.sent;
      peerRecv := p.header.recv;
      peerRMID := p.header.rmid;
    }

    method GetStats() returns (st: Stats)
      ensures st == Snapshot(View())
    {
      st := Stats(sent, recv, id, peerSent, peerRecv, peerRMID);
    }
  }
}

/**
 * Two PTCP endpoints joined by in-order channels that may lose packets. Each
 * direction keeps the log of everything sent and the increasing list of log
 * positions that arrived, so every statement is about true, unbounded totals
 * while the endpoints only hold 32-bit counters.
 */
module TwoEndpoints {
  import opened Bytes
  import opened Codec
  import opened PtcpSession

  /** A sent packet, and how many packets its sender had received by then. */
  datatype Entry = Entry(packet: Packet, seen: nat)

  datatype Direction = Direction(log: seq<Entry>, got: seq<nat>)

  /** Endpoint a with the direction it sends on and the one it receives on, and the peer b. */
  datatype Net = Net(a: Counters, b: Counters, ab: Direction, ba: Direction)

  const START := Net(FRESH, FRESH, Direction([], []), Direction([], []))

  /** The same network seen from the other end. */
  function Flip(n: Net): Net {
    Net(n.b, n.a, n.ba, n.ab)
  }

  datatype Action = Send(body: Body) | Receive(i: nat)
  datatype Event = AtA(act: Action) | AtB(act: Action)

  predicate EnabledA(n: Net, act: Action) {
    match act
    case Send(_) => true
    case Receive(i) => i < |n.ba.log| && (n.ba.got != [] ==> n.ba.got[|n.ba.got| - 1] < i)
  }

  function ApplyA(n: Net, act: Action): Net
    requires EnabledA(n, act)
  {
    match act
    case Send(body) =>
      n.(a := AfterSend(n.a, body),
         ab := n.ab.(log := n.ab.log + [Entry(NextPacket(n.a, body), |n.ba.got|)]))
    case Receive(i) =>
      n.(a := AfterRecv(n.a, n.ba.log[i].packet), ba := n.ba.(got := n.ba.got + [i]))
  }

  predicate Enabled(n: Net, e: Event) {
    match e
    case AtA(act) => EnabledA(n, act)
    case AtB(act) => EnabledA(Flip(n), act)
  }

  function Apply(n: Net, e: Event): Net
    requires Enabled(n, e)
  {
    match e
    case AtA(act) => ApplyA(n, act)
    case AtB(act) => Flip(ApplyA(Flip(n), act))
  }

  /** es is a run from n; After is where it ends. */
  predicate Run(n: Net, es: seq<Event>)
    decreases |es|
  {
    es == [] || (Enabled(n, es[0]) && Run(Apply(n, es[0]), es[1..]))
  }

  function After(n: Net, es: seq<Event>): Net
    requires Run(n, es)
    decreases |es|
  {
    if es == [] then n else After(Apply(n, es[0]), es[1..])
  }

  ghost predicate Reachable(n: Net) {
    exists es :: Run(START, es) && After(START, es) == n
  }

  // True totals

  function LogBytes(log: seq<Entry>): nat {
    if log == [] then 0 else LogBytes(log[..|log| - 1]) + Len(log[|log| - 1].packet.body)
  }

  function NonSync(log: seq<Entry>): nat {
    if log == [] then 0
    else NonSync(log[..|log| - 1]) + (if log[|log| - 1].packet.body.Sync? then 0 else 1)
  }

  predicate InLog(log: seq<Entry>, got: seq<nat>) {
    forall k :: 0 <= k < |got| ==> got[k] < |log|
  }

  function GotBytes(log: seq<Entry>, got: seq<nat>): nat
    requires InLog(log, got)
  {
    if got == [] then 0
    else GotBytes(log, got[..|got| - 1]) + Len(log[got[|got| - 1]].packet.body)
  }

  /** Bytes of the packets before position i that never arrived. */
  function LostBytes(d: Direction, i: nat): nat
    requires i <= |d.log|
  {
    if i == 0 then 0
    else LostBytes(d, i - 1) + (if i - 1 in d.got then 0 else Len(d.log[i - 1].packet.body))
  }

  // The invariant

  ghost predicate Increasing(got: seq<nat>) {
    forall j, k :: 0 <= j < k < |got| ==> got[j] < got[k]
  }

  /** Every logged packet carries the wrapped totals of the moment it was sent. */
  ghost predicate EntryOk(d: Direction, back: Direction, i: nat)
    requires i < |d.log| && InLog(back.log, back.got)
  {
    var e := d.log[i];
    && e.seen <= |back.got|
    && e.packet.header.sent == Wrap32(LogBytes(d.log[..i]))
    && e.packet.header.lmid == Wrap32(i)
    && e.packet.header.recv == Wrap32(GotBytes(back.log, back.got[..e.seen]))
    && e.packet.header.rmid == (if e.seen == 0 then 0 else back.log[back.got[e.seen - 1]].packet.header.lmid)
    && e.packet.header.pid ==
       if e.packet.body.Sync? then SYNC_PID else 0xFFFF - NonSync(d.log[..i]) % 0x1_0000
  }

  ghost predicate DirectionOk(d: Direction, back: Direction) {
    && InLog(d.log, d.got) && InLog(back.log, back.got)
    && Increasing(d.got)
    && forall i :: 0 <= i < |d.log| ==> EntryOk(d, back, i)
  }

  ghost predicate EndOk(c: Counters, outgoing: Direction, incoming: Direction)
    requires InLog(incoming.log, incoming.got)
  {
    && c.sent == Wrap32(LogBytes(outgoing.log))
    && c.id == Wrap32(|outgoing.log|)
    && c.count == Wrap32(NonSync(outgoing.log))
    && c.recv == Wrap32(GotBytes(incoming.log, incoming.got))
    && if incoming.got == [] then
         c.rmid == 0 && c.peerSent == 0 && c.peerRecv == 0 && c.peerRMID == 0
       else
         var h := incoming.log[incoming.got[|incoming.got| - 1]].packet.header;
         c.rmid == h.lmid && c.peerSent == h.sent && c.peerRecv == h.recv && c.peerRMID == h.rmid
  }

  ghost predicate Inv(n: Net) {
    && DirectionOk(n.ab, n.ba) && DirectionOk(n.ba, n.ab)
    && EndOk(n.a, n.ab, n.ba) && EndOk(n.b, n.ba, n.ab)
  }

  lemma {:induction false} GotBytesFrame(log: seq<Entry>, e: Entry, got: seq<nat>)
    requires InLog(log, got)
    ensures InLog(log + [e], got) && GotBytes(log + [e], got) == GotBytes(log, got)
  {
    if got != [] {
      GotBytesFrame(log, e, got[..|got| - 1]);
    }
  }

  /** The 16-bit mask does not see the wrap of the packet counter. */
  lemma MaskedCount(x: nat)
    ensures Wrap32(x) % 0x1_0000 == x % 0x1_0000
  {
  }

  lemma NewEntryOk(n: Net, body: Body)
    requires Inv(n)
    ensures var m := ApplyA(n, Send(body)); EntryOk(m.ab, m.ba, |n.ab.log|)
  {
    var m := ApplyA(n, Send(body));
    assert m.ab.log[..|n.ab.log|] == n.ab.log;
    assert n.ba.got[..|n.ba.got|] == n.ba.got;
    MaskedCount(NonSync(n.ab.log));
  }

  lemma SenderOk(n: Net, body: Body)
    requires Inv(n)
    ensures var m := ApplyA(n, Send(body)); EndOk(m.a, m.ab, m.ba)
  {
    var m := ApplyA(n, Send(body));
    assert m.ab.log[..|n.ab.log|] == n.ab.log;
    WrapAdd(LogBytes(n.ab.log), Len(body));
    WrapAdd(|n.ab.log|, 1);
    WrapAdd(NonSync(n.ab.log), 1);
  }

  lemma SendKeepsOutgoing(n: Net, body: Body)
    requires Inv(n)
    ensures var m := ApplyA(n, Send(body)); DirectionOk(m.ab, m.ba) && EndOk(m.a, m.ab, m.ba)
  {
    var m := ApplyA(n, Send(body));
    NewEntryOk(n, body);
    SenderOk(n, body);
    forall i | 0 <= i < |n.ab.log|
      ensures EntryOk(m.ab, m.ba, i)
    {
      assert EntryOk(n.ab, n.ba, i);
      assert m.ab.log[..i] == n.ab.log[..i];
    }
  }

  lemma SendKeepsIncoming(n: Net, body: Body)
    requires Inv(n)
    ensures var m := ApplyA(n, Send(body)); DirectionOk(m.ba, m.ab) && EndOk(m.b, m.ba, m.ab)
  {
    var m := ApplyA(n, Send(body));
    var e := m.ab.log[|n.ab.log|];
    GotBytesFrame(n.ab.log, e, n.ab.got);
    forall i | 0 <= i < |m.ba.log|
      ensures EntryOk(m.ba, m.ab, i)
    {
      assert EntryOk(n.ba, n.ab, i);
      GotBytesFrame(n.ab.log, e, n.ab.got[..n.ba.log[i].seen]);
    }
  }

  lemma ReceiveKeeps(n: Net, i: nat)
    requires Inv(n) && EnabledA(n, Receive(i))
    ensures Inv(ApplyA(n, Receive(i)))
  {
    var m := ApplyA(n, Receive(i));
    var k := |n.ba.got|;
    assert m.ba.got[..k] == n.ba.got;
    WrapAdd(GotBytes(n.ba.log, n.ba.got), Len(n.ba.log[i].packet.body));
    forall j | 0 <= j < |m.ba.log|
      ensures EntryOk(m.ba, m.ab, j)
    {
      assert EntryOk(n.ba, n.ab, j);
    }
    forall j | 0 <= j < |m.ab.log|
      ensures EntryOk(m.ab, m.ba, j)
    {
      assert EntryOk(n.ab, n.ba, j);
      assert m.ba.got[..m.ab.log[j].seen] == n.ba.got[..m.ab.log[j].seen];
    }
  }

  lemma ActionKeeps(n: Net, act: Action)
    requires Inv(n) && EnabledA(n, act)
    ensures Inv(ApplyA(n, act))
  {
    match act
    case Send(body) =>
      SendKeepsOutgoing(n, body);
      SendKeepsIncoming(n, body);
    case Receive(i) =>
      ReceiveKeeps(n, i);
  }

  /** Every run keeps the wrapped counters in step with the true totals, across any number of wraps. */
  lemma {:induction false} RunKeeps(n: Net, es: seq<Event>)
    requires Inv(n) && Run(n, es)
    ensures Inv(After(n, es))
    decreases |es|
  {
    if es != [] {
      match es[0] {
        case AtA(act) => ActionKeeps(n, act);
        case AtB(act) => ActionKeeps(Flip(n), act);
      }
      RunKeeps(Apply(n, es[0]), es[1..]);
    }
  }

  lemma ReachableInv(n: Net)
    requires Reachable(n)
    ensures Inv(n)
  {
    var es :| Run(START, es) && After(START, es) == n;
    RunKeeps(START, es);
  }

  /** Both ends run the same code, so what holds at a holds at b. */
  lemma {:induction false} FlipRun(n: Net, es: seq<Event>) returns (fs: seq<Event>)
    requires Run(n, es)
    ensures Run(Flip(n), fs) && After(Flip(n), fs) == Flip(After(n, es))
    decreases |es|
  {
    if es == [] {
      return [];
    }
    var rest := FlipRun(Apply(n, es[0]), es[1..]);
    var e := match es[0] case AtA(act) => AtB(act) case AtB(act) => AtA(act);
    assert Flip(Flip(n)) == n;
    fs := [e] + rest;
    assert fs[1..] == rest;
  }

  lemma FlipReachable(n: Net)
    requires Reachable(n)
    ensures Reachable(Flip(n))
  {
    var es :| Run(START, es) && After(START, es) == n;
    var fs := FlipRun(START, es);
    assert Flip(START) == START;
  }

  // Conservation

  /** Bytes of ours the peer had counted when it sent the last packet we received. */
  function ReportedBytes(n: Net): nat
    requires Inv(n)
  {
    if n.ba.got == [] then 0
    else
      var last := n.ba.got[|n.ba.got| - 1];
      assert EntryOk(n.ba, n.ab, last);
      GotBytes(n.ab.log, n.ab.got[..n.ba.log[last].seen])
  }

  lemma {:induction false} GotAtMostSent(log: seq<Entry>, got: seq<nat>, bound: nat)
    requires InLog(log, got) && Increasing(got) && bound <= |log|
    requires got != [] ==> got[|got| - 1] < bound
    ensures GotBytes(log, got) <= LogBytes(log[..bound])
  {
    if bound > 0 {
      assert log[..bound][..bound - 1] == log[..bound - 1];
      if got != [] && got[|got| - 1] == bound - 1 {
        GotAtMostSent(log, got[..|got| - 1], bound - 1);
      } else {
        GotAtMostSent(log, got, bound - 1);
      }
    }
  }

  /**
   * In every reachable state, with any loss: OutBytes is the number of bytes sent that the
   * peer's last report does not cover, exactly as long as that number is below 2^31.
   */
  lemma OutBytesConservation(n: Net)
    requires Reachable(n)
    ensures && Inv(n)
            && ReportedBytes(n) <= LogBytes(n.ab.log)
            && (OutBytes(Snapshot(n.a)) == LogBytes(n.ab.log) - ReportedBytes(n)
                <==> LogBytes(n.ab.log) - ReportedBytes(n) < TWO_31)
  {
    ReachableInv(n);
    var reported := ReportedBytes(n);
    if n.ba.got != [] {
      var last := n.ba.got[|n.ba.got| - 1];
      assert EntryOk(n.ba, n.ab, last);
      GotAtMostSent(n.ab.log, n.ab.got[..n.ba.log[last].seen], |n.ab.log|);
      assert n.ab.log[..|n.ab.log|] == n.ab.log;
    }
    DeltaIsDistance(LogBytes(n.ab.log), reported);
  }

  /** A sends the same body n times. */
  function Sends(body: Body, n: nat): seq<Event> {
    if n == 0 then [] else [AtA(Send(body))] + Sends(body, n - 1)
  }

  lemma {:induction false} SendsRun(net: Net, body: Body, n: nat)
    requires Len(body) == 64
    ensures Run(net, Sends(body, n))
    ensures var net' := After(net, Sends(body, n));
            net'.ba == net.ba && LogBytes(net'.ab.log) == LogBytes(net.ab.log) + 64 * n
    decreases n
  {
    if n > 0 {
      var next := Apply(net, AtA(Send(body)));
      assert next.ab.log[..|net.ab.log|] == net.ab.log;
      SendsRun(next, body, n - 1);
      assert Sends(body, n)[1..] == Sends(body, n - 1);
    }
  }

  /**
   * The bound is reached: a device that takes nothing of 2^25 packets with 64 bytes each leaves
   * 2^31 bytes outstanding, and OutBytes is negative.
   */
  lemma OutBytesTurnsNegative() returns (es: seq<Event>)
    ensures Run(START, es) && Inv(After(START, es))
    ensures LogBytes(After(START, es).ab.log) - ReportedBytes(After(START, es)) == TWO_31
    ensures OutBytes(Snapshot(After(START, es).a)) == -TWO_31
  {
    var body := Payload(0, seq(52, _ => 0));
    assert 64 * 0x200_0000 == TWO_31;
    var n: nat :| 64 * n == TWO_31;
    es := Sends(body, n);
    SendsRun(START, body, n);
    RunKeeps(START, es);
  }

  /** Nothing was lost so far: the packets that arrived are a prefix of the log. */
  ghost predicate Lossless(d: Direction) {
    |d.got| <= |d.log| && forall k :: 0 <= k < |d.got| ==> d.got[k] == k
  }

  lemma {:induction false} LogBytesSplit(log: seq<Entry>, k: nat)
    requires k <= |log|
    ensures LogBytes(log) == LogBytes(log[..k]) + LogBytes(log[k..])
  {
    if k == |log| {
      assert log[..k] == log;
    } else {
      var front := log[..|log| - 1];
      LogBytesSplit(front, k);
      assert front[..k] == log[..k];
      assert front[k..] == log[k..][..|log| - k - 1];
    }
  }

  lemma {:induction false} LosslessGot(d: Direction, k: nat)
    requires Lossless(d) && InLog(d.log, d.got) && k <= |d.got|
    ensures GotBytes(d.log, d.got[..k]) == LogBytes(d.log[..k])
  {
    if k > 0 {
      LosslessGot(d, k - 1);
      assert d.got[..k][..k - 1] == d.got[..k - 1];
      assert d.log[..k][..k - 1] == d.log[..k - 1];
    }
  }

  /** How many of our packets the peer had received when it sent the last packet we received. */
  function Reported(n: Net): nat
    requires InLog(n.ba.log, n.ba.got)
  {
    if n.ba.got == [] then 0 else n.ba.log[n.ba.got[|n.ba.got| - 1]].seen
  }

  /**
   * Lossless conservation: OutBytes is the bytes in flight plus the bytes the peer
   * received but has not reported back, while that total is below 2^31.
   */
  lemma LosslessConservation(n: Net)
    requires Reachable(n) && Lossless(n.ab)
    ensures && InLog(n.ba.log, n.ba.got)
            && Reported(n) <= |n.ab.got|
            && var inFlight := LogBytes(n.ab.log[|n.ab.got|..]);
               var unreported := LogBytes(n.ab.log[Reported(n)..|n.ab.got|]);
               OutBytes(Snapshot(n.a)) == inFlight + unreported <==> inFlight + unreported < TWO_31
  {
    OutBytesConservation(n);
    var k, r := |n.ab.got|, Reported(n);
    if n.ba.got != [] {
      assert EntryOk(n.ba, n.ab, n.ba.got[|n.ba.got| - 1]);
    }
    LosslessGot(n.ab, r);
    LogBytesSplit(n.ab.log, k);
    LogBytesSplit(n.ab.log[..k], r);
    assert n.ab.log[..k][..r] == n.ab.log[..r];
    assert n.ab.log[..k][r..] == n.ab.log[r..k];
    assert ReportedBytes(n) == LogBytes(n.ab.log[..r]) by {
      assert r == 0 ==> n.ab.got[..r] == [];
    }
  }

  lemma {:induction false} SentIsGotPlusLost(d: Direction, k: nat, i: nat)
    requires InLog(d.log, d.got) && Increasing(d.got)
    requires k <= |d.got| && i <= |d.log|
    requires forall j :: 0 <= j < k ==> d.got[j] < i
    requires forall j :: k <= j < |d.got| ==> i <= d.got[j]
    ensures LogBytes(d.log[..i]) == GotBytes(d.log, d.got[..k]) + LostBytes(d, i)
  {
    if i > 0 {
      assert d.log[..i][..i - 1] == d.log[..i - 1];
      if k > 0 && d.got[k - 1] == i - 1 {
        assert d.got[..k][..k - 1] == d.got[..k - 1];
        SentIsGotPlusLost(d, k - 1, i - 1);
      } else {
        SentIsGotPlusLost(d, k, i - 1);
      }
    }
  }

  /**
   * Under any loss: InBytes is the bytes lost before the last packet received, minus
   * that packet's own body, whenever this fits an int32. Without loss it is minus the
   * length of the last body.
   */
  lemma InBytesMeasuresLoss(n: Net)
    requires Reachable(n) && n.ba.got != []
    ensures && InLog(n.ba.log, n.ba.got)
            && var last := n.ba.got[|n.ba.got| - 1];
               var skew := LostBytes(n.ba, last) - Len(n.ba.log[last].packet.body);
               && (InBytes(Snapshot(n.a)) == skew <==> -TWO_31 <= skew < TWO_31)
               && (Lossless(n.ba) ==> LostBytes(n.ba, last) == 0)
  {
    ReachableInv(n);
    var k := |n.ba.got| - 1;
    var last := n.ba.got[k];
    assert EntryOk(n.ba, n.ab, last);
    SentIsGotPlusLost(n.ba, k, last);
    DeltaIsDistance(LogBytes(n.ba.log[..last]), GotBytes(n.ba.log, n.ba.got));
    if Lossless(n.ba) {
      LosslessGot(n.ba, k);
    }
  }

  // Packet identifiers

  lemma {:induction false} NonSyncBetween(log: seq<Entry>, i: nat, j: nat)
    requires i <= j <= |log|
    ensures NonSync(log[..i]) <= NonSync(log[..j]) <= NonSync(log[..i]) + (j - i)
  {
    if i < j {
      assert log[..j][..j - 1] == log[..j - 1];
      NonSyncBetween(log, i, j - 1);
    }
  }

  lemma SamePid(x: nat, y: nat)
    requires x < y
    ensures 0xFFFF - x % 0x1_0000 == 0xFFFF - y % 0x1_0000 <==> (y - x) % 0x1_0000 == 0
    ensures y - x < 0x1_0000 ==> (y - x) % 0x1_0000 != 0
  {
  }

  /**
   * Two non-SYNC packets share a PID exactly when the non-SYNC packets from one to the
   * other are a multiple of 65536, so never within 65535 packets of each other; and
   * none uses the PID of SYNC. The wrap of the packet counter at 2^32 changes nothing.
   */
  lemma PidUniqueness(n: Net, i: nat, j: nat)
    requires Reachable(n)
    requires i < j < |n.ab.log|
    requires !n.ab.log[i].packet.body.Sync? && !n.ab.log[j].packet.body.Sync?
    ensures var log := n.ab.log;
            var p, q := log[i].packet.header.pid, log[j].packet.header.pid;
            && (p == q <==> (NonSync(log[..j]) - NonSync(log[..i])) % 0x1_0000 == 0)
            && (j - i < 0x1_0000 ==> p != q)
            && p != SYNC_PID && p <= 0xFFFF
  {
    ReachableInv(n);
    var log := n.ab.log;
    assert EntryOk(n.ab, n.ba, i) && EntryOk(n.ab, n.ba, j);
    assert log[..i + 1][..i] == log[..i];
    NonSyncBetween(log, i + 1, j);
    SamePid(NonSync(log[..i]), NonSync(log[..j]));
  }

  /**
   * Every header field of every packet ever sent: the bytes sent before it, the bytes received
   * by then, its number, the number of the last packet received by then, and its PID.
   */
  lemma HeadersReportTotals(n: Net, i: nat)
    requires Reachable(n) && i < |n.ab.log|
    ensures && InLog(n.ba.log, n.ba.got)
            && var e := n.ab.log[i];
               var h := e.packet.header;
               && e.seen <= |n.ba.got|
               && h.sent == LogBytes(n.ab.log[..i]) % 0x1_0000_0000
               && h.recv == GotBytes(n.ba.log, n.ba.got[..e.seen]) % 0x1_0000_0000
               && h.lmid == i % 0x1_0000_0000
               && h.rmid == (if e.seen == 0 then 0 else n.ba.got[e.seen - 1] % 0x1_0000_0000)
               && h.pid == if e.packet.body.Sync? then 0x0002_FFFF else 0xFFFF - NonSync(n.ab.log[..i]) % 0x1_0000
  {
    ReachableInv(n);
    assert EntryOk(n.ab, n.ba, i);
    var seen := n.ab.log[i].seen;
    if seen > 0 {
      assert EntryOk(n.ba, n.ab, n.ba.got[seen - 1]);
    }
  }

  /** What an endpoint knows of the other: the fields of the last header it received. */
  lemma StatsReportLastHeader(n: Net)
    requires Reachable(n) && n.ba.got != []
    ensures && InLog(n.ba.log, n.ba.got)
            && var st, h := Snapshot(n.a), n.ba.log[n.ba.got[|n.ba.got| - 1]].packet.header;
               && st.peerSent == h.sent && st.peerRecv == h.recv && st.peerRMID == h.rmid
               && st.sent == LogBytes(n.ab.log) % 0x1_0000_0000 && st.lmid == |n.ab.log| % 0x1_0000_0000
               && st.recv == GotBytes(n.ba.log, n.ba.got) % 0x1_0000_0000
  {
    ReachableInv(n);
  }

  /** The LMID of a packet is its place in the sending order, modulo 2^32. */
  lemma LmidIsSendingOrder(n: Net, i: nat)
    requires Reachable(n) && i < |n.ab.log|
    ensures n.ab.log[i].packet.header.lmid == Wrap32(i)
  {
    ReachableInv(n);
    assert EntryOk(n.ab, n.ba, i);
  }
}

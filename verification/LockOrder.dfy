/**
 * The locks that every operation of the tunnel, its connections and the session manager
 * takes, path by path, and the proof that no interleaving of them deadlocks.
 */
module LockOrder {
  import opened Locks

  // Tunnel: sending

  /** sendPacket: the permit is held over session.Send and the UDP write. */
  function SendPacket(t: TunnelId): seq<Code> {
    [Guard(Permit(t), Exclusive, SendAndWrite(t))]
  }

  function SendAndWrite(t: TunnelId): seq<Code> {
    [Guard(SessionMu(t), Exclusive, [])] + [Doing]
  }

  /** How a write for a connection ends: without the permit, with it but shut down, refused, or sent. */
  datatype WriteEnd = GaveUp | ShutDown | Refused | Sent

  /** sendPacketFor a connection, after some rounds of waiting for the permit. */
  function SendPacketFor(t: TunnelId, c: ConnId, rounds: nat, end: WriteEnd): seq<Code> {
    Repeat([Guard(ConnMu(c), Exclusive, [])] + [Doing], rounds) + WithPermit(t, c, end)
  }

  function WithPermit(t: TunnelId, c: ConnId, end: WriteEnd): seq<Code> {
    match end
    case GaveUp => []
    case ShutDown => [Guard(Permit(t), Exclusive, [Doing])]
    case Refused => [Guard(Permit(t), Exclusive, CheckDeadline(t, c))]
    case Sent => [Guard(Permit(t), Exclusive, CheckDeadline(t, c) + SendAndWrite(t) + InterruptWrite(t))]
  }

  function CheckDeadline(t: TunnelId, c: ConnId): seq<Code> {
    [Guard(WriteDeadlineMu(t), Exclusive, [Guard(ConnMu(c), Exclusive, [])] + [Doing])]
  }

  /** interruptWrite, and the deferred clearing of the deadline. */
  function InterruptWrite(t: TunnelId): seq<Code> {
    [Guard(WriteDeadlineMu(t), Exclusive, [Doing])]
  }

  function Repeat(script: seq<Code>, n: nat): seq<Code> {
    if n == 0 then [] else script + Repeat(script, n - 1)
  }

  // Tunnel: shutdown

  function SignalClosed(t: TunnelId, c: ConnId): seq<Code> {
    [Guard(ConnMu(c), Exclusive, [])] + [Doing] + InterruptWrite(t)
  }

  function SignalAll(t: TunnelId, conns: seq<ConnId>): seq<Code> {
    if conns == [] then [] else SignalClosed(t, conns[0]) + SignalAll(t, conns[1..])
  }

  /** Forget, which is what the session manager installs as the close hook. */
  const FORGET := [Guard(ManagerMu, Exclusive, [Doing])]

  function Hook(installed: bool): seq<Code> {
    if installed then FORGET else []
  }

  /** Close: the connections signalled, the DISC packets, then the hook without any lock. */
  datatype Closing = Closing(already: bool, conns: seq<ConnId>, hook: bool)

  function CloseTunnel(t: TunnelId, how: Closing): seq<Code> {
    if how.already then [Guard(TunnelMu(t), Exclusive, [])]
    else [Guard(TunnelMu(t), Exclusive, TearDown(t, how.conns))] + Hook(how.hook)
  }

  function TearDown(t: TunnelId, conns: seq<ConnId>): seq<Code> {
    [Guard(AckMu(t), Exclusive, [Doing])] + [Guard(RealmsMu(t), Exclusive, [])] +
    SignalAll(t, conns) + Repeat(SendPacket(t), |conns|) + [Doing]
  }

  function ReadFlags(t: TunnelId): seq<Code> {
    [Guard(TunnelMu(t), Shared, [])]
  }

  /** SetOnClose, which runs the hook itself when the tunnel is closed already; Retire runs none. */
  function SetFlag(t: TunnelId, hook: bool): seq<Code> {
    [Guard(TunnelMu(t), Exclusive, [])] + Hook(hook)
  }

  function MaybeClose(t: TunnelId, close: bool, how: Closing): seq<Code> {
    if close then CloseTunnel(t, how) else []
  }

  // Tunnel: goroutines

  function Heartbeat(t: TunnelId, sends: bool, close: bool, how: Closing): seq<Code> {
    ReadFlags(t) + [Guard(MissedHeartbeatsMu(t), Exclusive, [])] +
    (if sends then SendPacket(t) + [Guard(SessionMu(t), Exclusive, [])] else []) + MaybeClose(t, close, how)
  }

  datatype Packet =
    | Empty
    | Sync
    | Connect
    | Disconnect(known: bool, c: ConnId)
    | Payload(overflow: bool, c: ConnId)
    | Other

  /** One packet in the reader. */
  function ReadPacket(t: TunnelId, p: Packet): seq<Code> {
    [Guard(MissedHeartbeatsMu(t), Exclusive, [])] + [Guard(LastAckTimeMu(t), Exclusive, [])] +
    [Guard(SessionMu(t), Exclusive, [])] + Dispatch(t, p)
  }

  function Dispatch(t: TunnelId, p: Packet): seq<Code> {
    match p
    case Empty => []
    case Sync => SendPacket(t)
    case Connect => [Guard(ConnChMu(t), Exclusive, [Doing])] + ScheduleAck(t)
    case Disconnect(known, c) => DropRealm(t, known, c) + ScheduleAck(t)
    case Payload(overflow, c) => Deliver(t, overflow, c) + ScheduleAck(t)
    case Other => ScheduleAck(t)
  }

  function DropRealm(t: TunnelId, known: bool, c: ConnId): seq<Code> {
    [Guard(RealmsMu(t), Exclusive, [])] + if known then SignalClosed(t, c) else []
  }

  function Deliver(t: TunnelId, overflow: bool, c: ConnId): seq<Code> {
    [Guard(RealmsMu(t), Shared, [])] +
    if overflow then DropRealm(t, true, c) + SendPacket(t) else [Doing]
  }

  function ScheduleAck(t: TunnelId): seq<Code> {
    [Guard(AckMu(t), Exclusive, [Doing])]
  }

  function FlushAck(t: TunnelId, close: bool, how: Closing): seq<Code> {
    [Guard(AckMu(t), Exclusive, SendPacket(t))] + MaybeClose(t, close, how)
  }

  // Dial

  /** One BIND attempt, with or without its cleanup. */
  function Attempt(t: TunnelId, installed: bool, cleanup: bool): seq<Code> {
    [Guard(RealmsMu(t), Shared, [])] + [Guard(RealmsMu(t), Exclusive, [])] +
    if !installed then []
    else [Guard(ConnChMu(t), Exclusive, [])] + SendPacket(t) + [Doing] +
         if cleanup then [Guard(RealmsMu(t), Exclusive, [])] + [Guard(ConnChMu(t), Exclusive, [])] else []
  }

  /** How Dial ends under dialMu: closed or retired by then, with a last attempt, or timed out. */
  datatype DialEnd = Rejected | Attempted(installed: bool, cleanup: bool) | TimedOut

  /** Dial after some attempts that timed out; the client's policy follows without any lock. */
  function Dial(t: TunnelId, timeouts: nat, end: DialEnd, policy: seq<Code>): seq<Code> {
    ReadFlags(t) + [Guard(DialMu(t), Exclusive, DialLocked(t, timeouts, end))] + policy
  }

  function DialLocked(t: TunnelId, timeouts: nat, end: DialEnd): seq<Code> {
    ReadFlags(t) + Repeat(Attempt(t, true, true), timeouts) +
    match end
    case Rejected => []
    case Attempted(installed, cleanup) => Attempt(t, installed, cleanup)
    case TimedOut => ReadFlags(t)
  }

  function DialPolicy(t: TunnelId, close: bool, retire: bool, how: Closing): seq<Code> {
    [Guard(LastAckTimeMu(t), Exclusive, [])] +
    if close then CloseTunnel(t, how)
    else [Guard(DialMu(t), Exclusive, [])] +
         if retire
         then [Guard(DialMu(t), Exclusive, [])] + [Guard(RealmsMu(t), Shared, [])] + SetFlag(t, false)
         else []
  }

  // Connections

  function Chunks(t: TunnelId, c: ConnId, chunks: seq<(nat, WriteEnd)>): seq<Code> {
    if chunks == [] then [] else SendPacketFor(t, c, chunks[0].0, chunks[0].1) + Chunks(t, c, chunks[1..])
  }

  function Write(t: TunnelId, c: ConnId, chunks: seq<(nat, WriteEnd)>): seq<Code> {
    [Guard(ConnMu(c), Exclusive, [])] + ReadFlags(t) + Chunks(t, c, chunks)
  }

  function Read(c: ConnId, passes: nat): seq<Code> {
    Repeat([Guard(ConnMu(c), Exclusive, [])] + [Doing], passes)
  }

  function CloseConn(t: TunnelId, c: ConnId, already: bool, discs: nat): seq<Code> {
    [Guard(ConnMu(c), Exclusive, [])] + SignalClosed(t, c) +
    if already then []
    else ReadFlags(t) + Repeat(SendPacket(t) + [Doing], discs) + [Guard(RealmsMu(t), Exclusive, [])]
  }

  function SetDeadline(t: TunnelId, c: ConnId): seq<Code> {
    [Guard(ConnMu(c), Exclusive, [])] + CheckDeadline(t, c)
  }

  // Session manager

  /** IsClosed and IsRetired of the tunnels in a list, asked under the manager's mutex. */
  function Probe(tunnels: seq<TunnelId>): seq<Code> {
    if tunnels == [] then [] else ReadFlags(tunnels[0]) + Probe(tunnels[1..])
  }

  /** Acquire: rounds of looking for a session, each probing some tunnels. */
  function Look(rounds: seq<seq<TunnelId>>): seq<Code> {
    if rounds == [] then [] else [Guard(ManagerMu, Exclusive, Probe(rounds[0]))] + [Doing] + Look(rounds[1..])
  }

  /** What follows: nothing, or a handshake whose client is listed, or one that has to be closed. */
  datatype Outcome = Hit | Listed(t: TunnelId, closedSince: bool) | Failed | Unused(t: TunnelId, how: Closing)

  function Acquire(rounds: seq<seq<TunnelId>>, out: Outcome): seq<Code> {
    Look(rounds) + Handshake(out)
  }

  function Handshake(out: Outcome): seq<Code> {
    match out
    case Hit => []
    case Failed => [Doing] + [Guard(ManagerMu, Exclusive, [])] + [Doing]
    case Listed(t, closedSince) => [Doing] + [Guard(ManagerMu, Exclusive, [])] + SetFlag(t, closedSince) + [Doing]
    case Unused(t, how) => [Doing] + [Guard(ManagerMu, Exclusive, [])] + CloseTunnel(t, how) + [Doing]
  }

  function Release(probed: seq<TunnelId>): seq<Code> {
    [Guard(ManagerMu, Exclusive, Probe(probed) + [Doing])]
  }

  function Expire(t: TunnelId, close: bool, how: Closing): seq<Code> {
    [Guard(ManagerMu, Exclusive, [Doing])] + MaybeClose(t, close, how)
  }

  function CloseEach(all: seq<(TunnelId, Closing)>): seq<Code> {
    if all == [] then [] else CloseTunnel(all[0].0, all[0].1) + CloseEach(all[1..])
  }

  // Every operation

  datatype Call =
    | CallClose(t: TunnelId, how: Closing)
    | CallReadFlags(t: TunnelId)
    | CallSetFlag(t: TunnelId, hook: bool)
    | CallHeartbeat(t: TunnelId, sends: bool, close: bool, how: Closing)
    | CallReadPacket(t: TunnelId, packet: Packet)
    | CallFlushAck(t: TunnelId, close: bool, how: Closing)
    | CallDial(t: TunnelId, timeouts: nat, end: DialEnd)
    | CallDialTimedOut(t: TunnelId, timeouts: nat, close: bool, retire: bool, how: Closing)
    | CallWrite(t: TunnelId, c: ConnId, chunks: seq<(nat, WriteEnd)>)
    | CallRead(c: ConnId, passes: nat)
    | CallCloseConn(t: TunnelId, c: ConnId, already: bool, discs: nat)
    | CallSetDeadline(t: TunnelId, c: ConnId)
    | CallAcquire(rounds: seq<seq<TunnelId>>, out: Outcome)
    | CallRelease(probed: seq<TunnelId>)
    | CallExpire(t: TunnelId, close: bool, how: Closing)
    | CallCloseAll(all: seq<(TunnelId, Closing)>)

  function Script(call: Call): seq<Code> {
    match call
    case CallClose(t, how) => CloseTunnel(t, how)
    case CallReadFlags(t) => ReadFlags(t)
    case CallSetFlag(t, hook) => SetFlag(t, hook)
    case CallHeartbeat(t, sends, close, how) => Heartbeat(t, sends, close, how)
    case CallReadPacket(t, p) => ReadPacket(t, p)
    case CallFlushAck(t, close, how) => FlushAck(t, close, how)
    case CallDial(t, timeouts, end) => Dial(t, timeouts, end, [])
    case CallDialTimedOut(t, timeouts, close, retire, how) =>
      Dial(t, timeouts, TimedOut, DialPolicy(t, close, retire, how))
    case CallWrite(t, c, chunks) => Write(t, c, chunks)
    case CallRead(c, passes) => Read(c, passes)
    case CallCloseConn(t, c, already, discs) => CloseConn(t, c, already, discs)
    case CallSetDeadline(t, c) => SetDeadline(t, c)
    case CallAcquire(rounds, out) => Acquire(rounds, out)
    case CallRelease(probed) => Release(probed)
    case CallExpire(t, close, how) => Expire(t, close, how)
    case CallCloseAll(all) => [Guard(ManagerMu, Exclusive, [Doing])] + CloseEach(all)
  }

  // Every operation follows the order

  lemma {:induction false} RepeatOrdered(code: seq<Code>, n: nat, floor: nat)
    requires AllOrdered(code, floor)
    ensures AllOrdered(Repeat(code, n), floor)
  {
    if n > 0 {
      RepeatOrdered(code, n - 1, floor);
    }
  }

  lemma SendOrdered(t: TunnelId)
    ensures AllOrdered(SendPacket(t), Rank(Permit(t)))
  {
  }

  lemma DeadlineOrdered(t: TunnelId, c: ConnId)
    ensures AllOrdered(CheckDeadline(t, c), Rank(WriteDeadlineMu(t)))
    ensures AllOrdered(InterruptWrite(t), Rank(WriteDeadlineMu(t)))
    ensures AllOrdered(SignalClosed(t, c), Rank(WriteDeadlineMu(t)))
  {
  }

  lemma WithPermitOrdered(t: TunnelId, c: ConnId, end: WriteEnd)
    ensures AllOrdered(WithPermit(t, c, end), Rank(Permit(t)))
  {
    DeadlineOrdered(t, c);
    assert AllOrdered(SendAndWrite(t), Rank(SessionMu(t)));
  }

  lemma SendForOrdered(t: TunnelId, c: ConnId, rounds: nat, end: WriteEnd)
    ensures AllOrdered(SendPacketFor(t, c, rounds, end), Rank(Permit(t)))
  {
    RepeatOrdered([Guard(ConnMu(c), Exclusive, [])] + [Doing], rounds, Rank(Permit(t)));
    WithPermitOrdered(t, c, end);
  }

  lemma {:induction false} SignalAllOrdered(t: TunnelId, conns: seq<ConnId>)
    ensures AllOrdered(SignalAll(t, conns), Rank(WriteDeadlineMu(t)))
  {
    if conns != [] {
      DeadlineOrdered(t, conns[0]);
      SignalAllOrdered(t, conns[1..]);
    }
  }

  lemma TearDownOrdered(t: TunnelId, conns: seq<ConnId>)
    ensures AllOrdered(TearDown(t, conns), Rank(AckMu(t)))
  {
    SignalAllOrdered(t, conns);
    SendOrdered(t);
    RepeatOrdered(SendPacket(t), |conns|, Rank(Permit(t)));
  }

  lemma CloseOrdered(t: TunnelId, how: Closing)
    ensures AllOrdered(CloseTunnel(t, how), 0)
  {
    TearDownOrdered(t, how.conns);
  }

  lemma DropRealmOrdered(t: TunnelId, known: bool, c: ConnId)
    ensures AllOrdered(DropRealm(t, known, c), Rank(Permit(t)))
  {
  }

  lemma DeliverOrdered(t: TunnelId, overflow: bool, c: ConnId)
    ensures AllOrdered(Deliver(t, overflow, c), Rank(Permit(t)))
  {
  }

  lemma DispatchOrdered(t: TunnelId, p: Packet)
    ensures AllOrdered(Dispatch(t, p), Rank(AckMu(t)))
  {
    match p
    case Sync => SendOrdered(t);
    case Disconnect(known, c) => DropRealmOrdered(t, known, c);
    case Payload(overflow, c) => DeliverOrdered(t, overflow, c);
    case _ =>
  }

  lemma ReaderOrdered(t: TunnelId, p: Packet)
    ensures AllOrdered(ReadPacket(t, p), Rank(AckMu(t)))
  {
    DispatchOrdered(t, p);
  }

  lemma AttemptOrdered(t: TunnelId, installed: bool, cleanup: bool)
    ensures AllOrdered(Attempt(t, installed, cleanup), Rank(Permit(t)))
  {
  }

  lemma DialLockedOrdered(t: TunnelId, timeouts: nat, end: DialEnd)
    ensures AllOrdered(DialLocked(t, timeouts, end), Rank(TunnelMu(t)))
  {
    AttemptOrdered(t, true, true);
    RepeatOrdered(Attempt(t, true, true), timeouts, Rank(Permit(t)));
    if end.Attempted? {
      AttemptOrdered(t, end.installed, end.cleanup);
    }
  }

  lemma DialOrdered(t: TunnelId, timeouts: nat, end: DialEnd, policy: seq<Code>)
    requires AllOrdered(policy, 0)
    ensures AllOrdered(Dial(t, timeouts, end, policy), 0)
  {
    DialLockedOrdered(t, timeouts, end);
  }

  lemma {:induction false} ChunksOrdered(t: TunnelId, c: ConnId, chunks: seq<(nat, WriteEnd)>)
    ensures AllOrdered(Chunks(t, c, chunks), Rank(Permit(t)))
  {
    if chunks != [] {
      SendForOrdered(t, c, chunks[0].0, chunks[0].1);
      ChunksOrdered(t, c, chunks[1..]);
    }
  }

  lemma {:induction false} ProbeOrdered(tunnels: seq<TunnelId>)
    ensures AllOrdered(Probe(tunnels), 2)
  {
    if tunnels != [] {
      ProbeOrdered(tunnels[1..]);
    }
  }

  lemma {:induction false} LookOrdered(rounds: seq<seq<TunnelId>>)
    ensures AllOrdered(Look(rounds), 0)
  {
    if rounds != [] {
      ProbeOrdered(rounds[0]);
      LookOrdered(rounds[1..]);
    }
  }

  lemma {:induction false} CloseEachOrdered(all: seq<(TunnelId, Closing)>)
    ensures AllOrdered(CloseEach(all), 0)
  {
    if all != [] {
      CloseOrdered(all[0].0, all[0].1);
      CloseEachOrdered(all[1..]);
    }
  }

  lemma CloseConnOrdered(t: TunnelId, c: ConnId, already: bool, discs: nat)
    ensures AllOrdered(CloseConn(t, c, already, discs), 0)
  {
    DeadlineOrdered(t, c);
    SendOrdered(t);
    RepeatOrdered(SendPacket(t) + [Doing], discs, Rank(Permit(t)));
  }

  lemma ConnectionsOrdered(call: Call)
    requires call.CallWrite? || call.CallRead? || call.CallCloseConn? || call.CallSetDeadline?
    ensures AllOrdered(Script(call), 0)
  {
    match call
    case CallWrite(t, c, chunks) => ChunksOrdered(t, c, chunks);
    case CallRead(c, passes) => RepeatOrdered([Guard(ConnMu(c), Exclusive, [])] + [Doing], passes, 0);
    case CallCloseConn(t, c, already, discs) => CloseConnOrdered(t, c, already, discs);
    case CallSetDeadline(t, c) => DeadlineOrdered(t, c);
  }

  lemma HandshakeOrdered(out: Outcome)
    ensures AllOrdered(Handshake(out), 0)
  {
    if out.Unused? {
      CloseOrdered(out.t, out.how);
    }
  }

  lemma ManagerOrdered(call: Call)
    requires call.CallAcquire? || call.CallRelease? || call.CallExpire? || call.CallCloseAll?
    ensures AllOrdered(Script(call), 0)
  {
    match call
    case CallAcquire(rounds, out) => LookOrdered(rounds); HandshakeOrdered(out);
    case CallRelease(probed) => ProbeOrdered(probed);
    case CallExpire(t, _, how) => CloseOrdered(t, how);
    case CallCloseAll(all) => CloseEachOrdered(all);
  }

  /** On every path of every operation, nested locks are taken in one strict order. */
  lemma EveryCallIsOrdered(call: Call)
    ensures AllOrdered(Script(call), 0)
  {
    match call
    case CallClose(t, how) => CloseOrdered(t, how);
    case CallReadFlags(t) =>
    case CallSetFlag(t, hook) =>
    case CallHeartbeat(t, _, _, how) => SendOrdered(t); CloseOrdered(t, how);
    case CallReadPacket(t, p) => ReaderOrdered(t, p);
    case CallFlushAck(t, _, how) => SendOrdered(t); CloseOrdered(t, how);
    case CallDial(t, timeouts, end) => DialOrdered(t, timeouts, end, []);
    case CallDialTimedOut(t, timeouts, close, retire, how) =>
      CloseOrdered(t, how);
      DialOrdered(t, timeouts, TimedOut, DialPolicy(t, close, retire, how));
    case CallAcquire(_, _) => ManagerOrdered(call);
    case CallRelease(_) => ManagerOrdered(call);
    case CallExpire(_, _, _) => ManagerOrdered(call);
    case CallCloseAll(_) => ManagerOrdered(call);
    case _ => ConnectionsOrdered(call);
  }

  // Runs

  /** A goroutine starts, an idle one begins an operation, or a busy one takes a step. */
  datatype Event = Spawn | Begin(i: nat, call: Call) | Go(i: nat)

  predicate Enabled(s: State, e: Event) {
    match e
    case Spawn => true
    case Begin(i, _) => i < |s| && s[i] == IDLE
    case Go(i) => CanStep(s, i)
  }

  function Apply(s: State, e: Event): State
    requires Enabled(s, e)
  {
    match e
    case Spawn => s + [IDLE]
    case Begin(i, call) => s[i := Thread(map[], Ops(Script(call)), false)]
    case Go(i) => Step(s, i)
  }

  predicate Run(s: State, es: seq<Event>)
    decreases |es|
  {
    es == [] || (Enabled(s, es[0]) && Run(Apply(s, es[0]), es[1..]))
  }

  function After(s: State, es: seq<Event>): State
    requires Run(s, es)
    decreases |es|
  {
    if es == [] then s else After(Apply(s, es[0]), es[1..])
  }

  ghost predicate Reachable(s: State) {
    exists es :: Run([], es) && After([], es) == s
  }

  lemma BeginKeeps(s: State, i: nat, call: Call)
    requires Inv(s) && i < |s| && s[i] == IDLE
    ensures Inv(s[i := Thread(map[], Ops(Script(call)), false)])
  {
    EveryCallIsOrdered(call);
    OrderedIsClean(Script(call), 0);
    assert Below(map[], 0);
  }

  lemma {:induction false} RunKeeps(s: State, es: seq<Event>)
    requires Inv(s) && Run(s, es)
    ensures Inv(After(s, es))
    decreases |es|
  {
    if es != [] {
      match es[0] {
        case Spawn =>
        case Begin(i, call) => BeginKeeps(s, i, call);
        case Go(i) => StepKeeps(s, i);
      }
      RunKeeps(Apply(s, es[0]), es[1..]);
    }
  }

  lemma ReachableInv(s: State)
    requires Reachable(s)
    ensures Inv(s)
  {
    var es :| Run([], es) && After([], es) == s;
    RunKeeps([], es);
  }

  // Theorems

  /** Two goroutines hold the same lock only if both hold it for reading. */
  lemma MutualExclusion(s: State, i: nat, j: nat, l: Lock)
    requires Reachable(s) && i < |s| && j < |s| && i != j && l in s[i].held && l in s[j].held
    ensures s[i].held[l] == Shared && s[j].held[l] == Shared
  {
    ReachableInv(s);
    assert Excluded(s[i], s[j]);
  }

  /** No reachable state has a cycle of waiting goroutines. */
  lemma NoWaitCycle(s: State, path: seq<nat>)
    requires Reachable(s) && |path| >= 2 && WaitPath(s, path)
    ensures path[0] != path[|path| - 1]
  {
    ReachableInv(s);
    NoCycle(s, path);
  }

  /** While any operation is unfinished, some goroutine has a step that no one can refuse. */
  lemma NoDeadlock(s: State, i: nat)
    requires Reachable(s) && i < |s| && Busy(s[i])
    ensures exists j :: MustStep(s, j)
  {
    ReachableInv(s);
    var j := Unblock(s, i);
  }

  lemma {:induction false} GoRun(s: State, es: seq<Event>)
    requires Inv(s) && Run(s, es)
    requires forall e :: e in es ==> e.Go?
    ensures Inv(After(s, es)) && |After(s, es)| == |s|
    ensures TotalLeft(After(s, es)) == TotalLeft(s) - |es|
    decreases |es|
  {
    if es != [] {
      assert es[0].Go?;
      StepKeeps(s, es[0].i);
      StepCosts(s, es[0].i);
      GoRun(Step(s, es[0].i), es[1..]);
    }
  }

  /**
   * Operations under way all finish. Whatever the schedule, a run in which none begins has
   * at most TotalLeft(s) steps, can be continued while it has fewer, and then leaves
   * every goroutine idle.
   */
  lemma EveryOperationEnds(s: State, es: seq<Event>)
    requires Reachable(s) && Run(s, es)
    requires forall e :: e in es ==> e.Go?
    ensures |es| <= TotalLeft(s)
    ensures |es| < TotalLeft(s) <==> exists j :: MustStep(After(s, es), j)
    ensures |es| == TotalLeft(s) <==> forall th :: th in After(s, es) ==> !Busy(th)
  {
    ReachableInv(s);
    GoRun(s, es);
    var end := After(s, es);
    TotalNonnegative(end);
    if i: nat :| i < |end| && Busy(end[i]) {
      var j := Unblock(end, i);
      assert end[i] in end;
    }
  }
}

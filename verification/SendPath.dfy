/**
 * The outbound path of a tunnel: every goroutine that sends a packet, closes a Conn
 * or moves a write deadline, interleaved in any order. One step is one critical
 * section or one channel operation. writeDeadlineMu guards the active writer but not
 * Conn.closed, so the sections that read Conn.closed under it take two steps.
 */
module SendPath {
  import opened Options

  type Tid = nat
  type ConnId = nat
  type Time = int

  datatype Conn = Conn(closed: bool, chClosed: bool, deadline: Option<Time>, epoch: nat)

  /** The write deadline of the shared UDP socket, and on whose behalf it was set. */
  datatype Socket = Clear | At(time: Time, owner: ConnId)

  datatype Sent = Sent(lmid: nat, writer: Option<ConnId>)

  /** Where a goroutine is inside sendPacketFor. */
  datatype SendPc =
    | Queued                                      // at the top of the permit loop
    | Parked(until: Option<Time>, epoch: nat)     // in the select
    | Granted                                     // took the permit there
    | Holding                                     // acquireSendPermit returned nil
    | Checking(until: Option<Time>, closed: bool) // holds writeDeadlineMu
    | Armed                                       // next: session.Send
    | Writing(lmid: nat)                          // in the UDP write
    | Wrote                                       // next: the deferred clear
    | Returning                                   // next: the deferred permit return

  datatype ClosePc = Marking | Marked | Unblocked

  datatype SetPc = Storing | Stored | Updating(closed: bool)

  /** The writer of a Send is None for ACKs, heartbeats, BIND, DISC and SYNC. */
  datatype Pc =
    | Send(w: Option<ConnId>, send: SendPc)
    | Close(c: ConnId, close: ClosePc)
    | Set(c: ConnId, until: Option<Time>, set_: SetPc)
    | Finished

  /** The one-slot permit channel, and who received the permit last and has not put it back. */
  datatype Permit = Permit(free: nat, holder: Option<Tid>)

  /** The active writer and the socket's deadline, with who holds writeDeadlineMu across two steps. */
  datatype Gate = Gate(wd: Option<Tid>, active: Option<ConnId>, socket: Socket)

  /** The session's next LMID, not wrapped, and what the socket accepted, in order. */
  datatype Out = Out(nextId: nat, wire: seq<Sent>)

  /** Whether the UDP socket is open, whether the tunnel's done channel is closed, and the time. */
  datatype Env = Env(open: bool, done: bool, now: Time)

  datatype State = State(
    conns: map<ConnId, Conn>,
    pcs: map<Tid, Pc>,
    permit: Permit,
    gate: Gate,
    out: Out,
    env: Env,
    signalled: set<ConnId>)  // Conns for which some signalClosed has returned

  const START := State(map[], map[], Permit(1, None), Gate(None, None, Clear), Out(0, []), Env(true, false, 0), {})

  /** How a step that has a choice goes on: ahead, with an error, or around the loop. */
  datatype Pick = Ahead | Fail | Again

  datatype Event =
    | Tick(now: Time)
    | Shutdown
    | CloseSocket
    | NewConn(c: ConnId, deadline: Option<Time>)
    | Spawn(t: Tid, pc: Pc)
    | Step(t: Tid, pick: Pick)

  predicate Expired(until: Option<Time>, now: Time) {
    until.Some? && until.value <= now
  }

  function SocketFor(until: Option<Time>, c: ConnId): Socket {
    if until.None? then Clear else At(until.value, c)
  }

  predicate SocketExpired(s: State) {
    s.gate.socket.At? && s.gate.socket.time <= s.env.now
  }

  predicate Enabled(s: State, e: Event) {
    match e
    case Tick(now) => s.env.now <= now
    case Shutdown => true
    case CloseSocket => s.env.done
    case NewConn(c, _) => c !in s.conns
    case Spawn(t, pc) => t !in s.pcs && Entry(s, pc)
    case Step(t, pick) => t in s.pcs && CanStep(s, s.pcs[t], pick)
  }

  /** Where a goroutine may start. */
  predicate Entry(s: State, pc: Pc) {
    match pc
    case Send(w, send) => send == Queued && (w.Some? ==> w.value in s.conns)
    case Close(c, close) => close == Marking && c in s.conns
    case Set(c, _, set_) => set_ == Storing && c in s.conns
    case Finished => false
  }

  predicate CanStep(s: State, pc: Pc, pick: Pick) {
    match pc
    case Send(w, send) => if w.None? then CanSendPlain(s, send, pick) else CanSend(s, w.value, send, pick)
    case Close(c, close) => c in s.conns && pick == Ahead && (close == Unblocked ==> s.gate.wd.None?)
    case Set(c, _, set_) => c in s.conns && pick == Ahead && (set_ == Stored ==> s.gate.wd.None?)
    case Finished => false
  }

  predicate CanWrite(s: State, pick: Pick) {
    pick == Fail || (pick == Ahead && s.env.open && !SocketExpired(s))
  }

  /** sendPacket: no Conn, so neither a deadline nor a close can interrupt it. */
  predicate CanSendPlain(s: State, send: SendPc, pick: Pick) {
    match send
    case Queued => pick == Ahead && s.permit.free > 0
    case Writing(_) => CanWrite(s, pick)
    case _ => pick == Ahead && (send == Armed || send == Wrote || send == Returning)
  }

  predicate CanSend(s: State, c: ConnId, send: SendPc, pick: Pick) {
    c in s.conns &&
    match send
    case Parked(until, epoch) =>
      (match pick
       case Ahead => s.permit.free > 0
       case Fail => s.conns[c].chClosed || s.env.done || Expired(until, s.env.now)
       case Again => epoch < s.conns[c].epoch)
    case Writing(_) => CanWrite(s, pick)
    case _ => pick == Ahead && (send == Holding || send == Wrote ==> s.gate.wd.None?)
  }

  function Apply(s: State, e: Event): State
    requires Enabled(s, e)
  {
    match e
    case Tick(now) => s.(env := s.env.(now := now))
    case Shutdown => s.(env := s.env.(done := true))
    case CloseSocket => s.(env := s.env.(open := false))
    case NewConn(c, deadline) => s.(conns := s.conns[c := Conn(false, false, deadline, 0)])
    case Spawn(t, pc) => Goto(s, t, pc)
    case Step(t, pick) => ApplyStep(s, t, s.pcs[t], pick)
  }

  function ApplyStep(s: State, t: Tid, pc: Pc, pick: Pick): State
    requires CanStep(s, pc, pick)
  {
    match pc
    case Send(w, send) =>
      if w.None? then ApplySendPlain(s, t, send, pick) else ApplySend(s, t, w.value, send, pick)
    case Close(c, close) => ApplyClose(s, t, c, close)
    case Set(c, until, set_) => ApplySet(s, t, c, until, set_)
    case Finished => s
  }

  function Goto(s: State, t: Tid, pc: Pc): State {
    s.(pcs := s.pcs[t := pc])
  }

  function Took(s: State, t: Tid, pc: Pc): State
    requires s.permit.free > 0
  {
    s.(pcs := s.pcs[t := pc], permit := Permit(s.permit.free - 1, Some(t)))
  }

  function Returned(s: State, t: Tid): State {
    s.(pcs := s.pcs[t := Finished], permit := Permit(s.permit.free + 1, None))
  }

  function WriteDone(s: State, t: Tid, w: Option<ConnId>, lmid: nat, pick: Pick): State {
    s.(pcs := s.pcs[t := Send(w, Wrote)], out := if pick == Ahead then s.out.(wire := s.out.wire + [Sent(lmid, w)]) else s.out)
  }

  function ApplySendPlain(s: State, t: Tid, send: SendPc, pick: Pick): State
    requires CanSendPlain(s, send, pick)
  {
    match send
    case Queued => Took(s, t, Send(None, Armed))
    case Armed => s.(pcs := s.pcs[t := Send(None, Writing(s.out.nextId))], out := s.out.(nextId := s.out.nextId + 1))
    case Writing(lmid) => WriteDone(s, t, None, lmid, pick)
    case Wrote => Goto(s, t, Send(None, Returning))
    case Returning => Returned(s, t)
    case _ => s
  }

  function ApplySend(s: State, t: Tid, c: ConnId, send: SendPc, pick: Pick): State
    requires CanSend(s, c, send, pick)
  {
    if send.Queued? || send.Parked? || send.Granted? then ApplyAcquire(s, t, c, send, pick)
    else ApplyWrite(s, t, c, send, pick)
  }

  /** acquireSendPermit on behalf of a Conn. */
  function ApplyAcquire(s: State, t: Tid, c: ConnId, send: SendPc, pick: Pick): State
    requires CanSend(s, c, send, pick) && (send.Queued? || send.Parked? || send.Granted?)
  {
    var w := Some(c);
    var conn := s.conns[c];
    match send
    case Queued =>
      if conn.closed || Expired(conn.deadline, s.env.now) then Goto(s, t, Finished)
      else Goto(s, t, Send(w, Parked(conn.deadline, conn.epoch)))
    case Parked(_, _) =>
      (match pick
       case Ahead => Took(s, t, Send(w, Granted))
       case Fail => Goto(s, t, Finished)
       case Again => Goto(s, t, Send(w, Queued)))
    case Granted => Goto(s, t, Send(w, if s.env.done then Returning else Holding))
  }

  /** sendPacketFor on behalf of a Conn, once the permit is held. */
  function ApplyWrite(s: State, t: Tid, c: ConnId, send: SendPc, pick: Pick): State
    requires CanSend(s, c, send, pick) && !send.Queued? && !send.Parked? && !send.Granted?
  {
    var w := Some(c);
    var conn := s.conns[c];
    match send
    case Holding => s.(pcs := s.pcs[t := Send(w, Checking(conn.deadline, conn.closed))], gate := s.gate.(wd := Some(t)))
    case Checking(until, closed) => ApplyArm(s, t, c, until, closed)
    case Armed => s.(pcs := s.pcs[t := Send(w, Writing(s.out.nextId))], out := s.out.(nextId := s.out.nextId + 1))
    case Writing(lmid) => WriteDone(s, t, w, lmid, pick)
    case Wrote =>
      s.(pcs := s.pcs[t := Send(w, Returning)], gate := Gate(s.gate.wd, None, if s.env.open then Clear else s.gate.socket))
    case Returning => Returned(s, t)
  }

  /** The rest of the first writeDeadlineMu section of sendPacketFor. */
  function ApplyArm(s: State, t: Tid, c: ConnId, until: Option<Time>, closed: bool): State {
    if closed || Expired(until, s.env.now) then
      s.(pcs := s.pcs[t := Send(Some(c), Returning)], gate := s.gate.(wd := None))
    else if !s.env.open then  // SetWriteDeadline fails
      s.(pcs := s.pcs[t := Send(Some(c), Returning)], gate := s.gate.(wd := None, active := None))
    else
      s.(pcs := s.pcs[t := Send(Some(c), Armed)], gate := Gate(None, Some(c), SocketFor(until, c)))
  }

  /** signalClosed, with interruptWrite as its last step. */
  function ApplyClose(s: State, t: Tid, c: ConnId, close: ClosePc): State
    requires c in s.conns
  {
    match close
    case Marking => s.(pcs := s.pcs[t := Close(c, Marked)], conns := s.conns[c := s.conns[c].(closed := true)])
    case Marked => s.(pcs := s.pcs[t := Close(c, Unblocked)], conns := s.conns[c := s.conns[c].(chClosed := true)])
    case Unblocked =>
      s.(pcs := s.pcs[t := Finished],
         signalled := s.signalled + {c},
         gate := if s.gate.active == Some(c) && s.env.open then s.gate.(socket := At(s.env.now, c)) else s.gate)
  }

  /** SetDeadline or SetWriteDeadline, with updateWriteDeadline as its last two steps. */
  function ApplySet(s: State, t: Tid, c: ConnId, until: Option<Time>, set_: SetPc): State
    requires c in s.conns
  {
    match set_
    case Storing =>
      var conn := s.conns[c];
      s.(pcs := s.pcs[t := Set(c, until, Stored)],
         conns := s.conns[c := conn.(deadline := until, epoch := conn.epoch + 1)])
    case Stored => s.(pcs := s.pcs[t := Set(c, until, Updating(s.conns[c].closed))], gate := s.gate.(wd := Some(t)))
    case Updating(closed) =>
      s.(pcs := s.pcs[t := Finished],
         gate := s.gate.(
           wd := None,
           socket := if !closed && s.gate.active == Some(c) && s.env.open then SocketFor(until, c) else s.gate.socket))
  }

  predicate Run(s: State, es: seq<Event>)
    decreases |es|
  {
    es == [] || (Enabled(s, es[0]) && Run(Apply(s, es[0]), es[1..]))
  }

  function After(s: State, es: seq<Event>): State
    requires Run(s, es)
    decreases |es|
  {
    if es == [] then s else After(Apply(s, es[0]), es[1..])
  }

  ghost predicate Reachable(s: State) {
    exists es :: Run(START, es) && After(START, es) == s
  }

  // The invariant

  predicate Holds(pc: Pc) {
    pc.Send? && !pc.send.Queued? && !pc.send.Parked?
  }

  predicate InDeadlineSection(pc: Pc) {
    (pc.Send? && pc.send.Checking?) || (pc.Set? && pc.set_.Updating?)
  }

  /** The Conn this goroutine has made the active writer. */
  function ActiveOf(pc: Pc): Option<ConnId> {
    if pc.Send? && (pc.send.Armed? || pc.send.Writing? || pc.send.Wrote?) then pc.w else None
  }

  /** What a goroutine at pc relies on, whatever the others do. */
  ghost predicate ThreadOk(s: State, t: Tid, pc: Pc) {
    && (Holds(pc) <==> s.permit.holder == Some(t))
    && (InDeadlineSection(pc) <==> s.gate.wd == Some(t))
    && KnowsClosed(s, pc)
    && (pc.Send? && pc.send.Writing? ==>
          && pc.send.lmid + 1 == s.out.nextId
          && (s.out.wire != [] ==> s.out.wire[|s.out.wire| - 1].lmid < pc.send.lmid))
  }

  /** Whoever is in a deadline section knows which Conns signalClosed has dealt with. */
  ghost predicate KnowsClosed(s: State, pc: Pc) {
    match pc
    case Send(w, send) => send.Checking? && w.Some? && w.value in s.signalled ==> send.closed
    case Close(c, close) =>
      close.Marked? || close.Unblocked? ==>
        c in s.conns && s.conns[c].closed && (close.Unblocked? ==> s.conns[c].chClosed)
    case Set(c, _, set_) => set_.Updating? && c in s.signalled ==> set_.closed
    case Finished => true
  }

  /** Exactly one permit: in the channel, or with one goroutine. */
  ghost predicate PermitOk(s: State) {
    && s.permit.free == (if s.permit.holder.None? then 1 else 0)
    && (s.permit.holder.Some? ==> s.permit.holder.value in s.pcs)
    && (s.gate.wd.Some? ==> s.gate.wd.value in s.pcs)
  }

  /** The active writer is the permit holder's, and the socket's deadline is the active writer's. */
  ghost predicate ActiveOk(s: State)
    requires PermitOk(s)
  {
    && s.gate.active == (if s.permit.holder.None? then None else ActiveOf(s.pcs[s.permit.holder.value]))
    && (s.env.open && s.gate.socket.At? ==> s.gate.active == Some(s.gate.socket.owner))
    && (s.env.open && s.gate.active.Some? && s.gate.active.value in s.signalled ==> SocketExpired(s))
  }

  ghost predicate SignalledOk(s: State) {
    forall c :: c in s.signalled ==> c in s.conns && s.conns[c].closed && s.conns[c].chClosed
  }

  ghost predicate WireOk(s: State) {
    && (forall i, j :: 0 <= i < j < |s.out.wire| ==> s.out.wire[i].lmid < s.out.wire[j].lmid)
    && (s.out.wire != [] ==> s.out.wire[|s.out.wire| - 1].lmid < s.out.nextId)
  }

  ghost predicate SharedOk(s: State) {
    PermitOk(s) && ActiveOk(s) && SignalledOk(s) && WireOk(s)
  }

  ghost predicate Inv(s: State) {
    SharedOk(s) && forall t :: t in s.pcs ==> ThreadOk(s, t, s.pcs[t])
  }

  lemma PlainKeeps(s: State, t: Tid, send: SendPc, pick: Pick)
    requires SharedOk(s) && t in s.pcs && s.pcs[t] == Send(None, send)
    requires CanSendPlain(s, send, pick) && ThreadOk(s, t, s.pcs[t])
    ensures var s' := ApplySendPlain(s, t, send, pick); SharedOk(s') && ThreadOk(s', t, s'.pcs[t])
  {
  }

  lemma PlainKeepsOther(s: State, t: Tid, send: SendPc, pick: Pick, u: Tid)
    requires SharedOk(s) && t in s.pcs && s.pcs[t] == Send(None, send)
    requires CanSendPlain(s, send, pick) && ThreadOk(s, t, s.pcs[t])
    requires u != t && u in s.pcs && ThreadOk(s, u, s.pcs[u])
    ensures ThreadOk(ApplySendPlain(s, t, send, pick), u, s.pcs[u])
  {
  }

  lemma AcquireKeeps(s: State, t: Tid, c: ConnId, send: SendPc, pick: Pick)
    requires SharedOk(s) && t in s.pcs && s.pcs[t] == Send(Some(c), send)
    requires CanSend(s, c, send, pick) && (send.Queued? || send.Parked? || send.Granted?) && ThreadOk(s, t, s.pcs[t])
    ensures var s' := ApplyAcquire(s, t, c, send, pick); SharedOk(s') && ThreadOk(s', t, s'.pcs[t])
  {
    match send
    case Queued =>
    case Parked(_, _) =>
      match pick {
        case Ahead =>
        case Fail =>
        case Again =>
      }
    case Granted =>
  }

  lemma WriteKeeps(s: State, t: Tid, c: ConnId, send: SendPc, pick: Pick)
    requires SharedOk(s) && t in s.pcs && s.pcs[t] == Send(Some(c), send)
    requires CanSend(s, c, send, pick) && !send.Queued? && !send.Parked? && !send.Granted? && ThreadOk(s, t, s.pcs[t])
    ensures var s' := ApplyWrite(s, t, c, send, pick); SharedOk(s') && ThreadOk(s', t, s'.pcs[t])
  {
  }

  lemma SendKeeps(s: State, t: Tid, c: ConnId, send: SendPc, pick: Pick)
    requires SharedOk(s) && t in s.pcs && s.pcs[t] == Send(Some(c), send)
    requires CanSend(s, c, send, pick) && ThreadOk(s, t, s.pcs[t])
    ensures var s' := ApplySend(s, t, c, send, pick); SharedOk(s') && ThreadOk(s', t, s'.pcs[t])
  {
    if send.Queued? || send.Parked? || send.Granted? {
      AcquireKeeps(s, t, c, send, pick);
    } else {
      WriteKeeps(s, t, c, send, pick);
    }
  }

  lemma SendKeepsOther(s: State, t: Tid, c: ConnId, send: SendPc, pick: Pick, u: Tid)
    requires SharedOk(s) && t in s.pcs && s.pcs[t] == Send(Some(c), send)
    requires CanSend(s, c, send, pick) && ThreadOk(s, t, s.pcs[t])
    requires u != t && u in s.pcs && ThreadOk(s, u, s.pcs[u])
    ensures ThreadOk(ApplySend(s, t, c, send, pick), u, s.pcs[u])
  {
  }

  lemma CloseKeeps(s: State, t: Tid, c: ConnId, close: ClosePc)
    requires SharedOk(s) && t in s.pcs && s.pcs[t] == Close(c, close)
    requires c in s.conns && (close == Unblocked ==> s.gate.wd.None?) && ThreadOk(s, t, s.pcs[t])
    ensures var s' := ApplyClose(s, t, c, close); SharedOk(s') && ThreadOk(s', t, s'.pcs[t])
  {
  }

  lemma CloseKeepsOther(s: State, t: Tid, c: ConnId, close: ClosePc, u: Tid)
    requires SharedOk(s) && t in s.pcs && s.pcs[t] == Close(c, close)
    requires c in s.conns && (close == Unblocked ==> s.gate.wd.None?) && ThreadOk(s, t, s.pcs[t])
    requires u != t && u in s.pcs && ThreadOk(s, u, s.pcs[u])
    ensures ThreadOk(ApplyClose(s, t, c, close), u, s.pcs[u])
  {
  }

  lemma SetKeeps(s: State, t: Tid, c: ConnId, until: Option<Time>, set_: SetPc)
    requires SharedOk(s) && t in s.pcs && s.pcs[t] == Set(c, until, set_)
    requires c in s.conns && (set_ == Stored ==> s.gate.wd.None?) && ThreadOk(s, t, s.pcs[t])
    ensures var s' := ApplySet(s, t, c, until, set_); SharedOk(s') && ThreadOk(s', t, s'.pcs[t])
  {
  }

  lemma SetKeepsOther(s: State, t: Tid, c: ConnId, until: Option<Time>, set_: SetPc, u: Tid)
    requires SharedOk(s) && t in s.pcs && s.pcs[t] == Set(c, until, set_)
    requires c in s.conns && (set_ == Stored ==> s.gate.wd.None?) && ThreadOk(s, t, s.pcs[t])
    requires u != t && u in s.pcs && ThreadOk(s, u, s.pcs[u])
    ensures ThreadOk(ApplySet(s, t, c, until, set_), u, s.pcs[u])
  {
  }

  lemma StepMovesOne(s: State, t: Tid, pick: Pick)
    requires Enabled(s, Step(t, pick))
    ensures var s' := ApplyStep(s, t, s.pcs[t], pick);
            && s'.pcs.Keys == s.pcs.Keys
            && forall u :: u in s.pcs && u != t ==> s'.pcs[u] == s.pcs[u]
  {
  }

  lemma StepKeepsMover(s: State, t: Tid, pick: Pick)
    requires SharedOk(s) && Enabled(s, Step(t, pick)) && ThreadOk(s, t, s.pcs[t])
    ensures var s' := ApplyStep(s, t, s.pcs[t], pick);
            t in s'.pcs && SharedOk(s') && ThreadOk(s', t, s'.pcs[t])
  {
    match s.pcs[t]
    case Send(w, send) =>
      if w.None? {
        PlainKeeps(s, t, send, pick);
      } else {
        SendKeeps(s, t, w.value, send, pick);
      }
    case Close(c, close) => CloseKeeps(s, t, c, close);
    case Set(c, until, set_) => SetKeeps(s, t, c, until, set_);
  }

  lemma StepKeepsOther(s: State, t: Tid, pick: Pick, u: Tid)
    requires SharedOk(s) && Enabled(s, Step(t, pick)) && ThreadOk(s, t, s.pcs[t])
    requires u != t && u in s.pcs && ThreadOk(s, u, s.pcs[u])
    ensures ThreadOk(ApplyStep(s, t, s.pcs[t], pick), u, s.pcs[u])
  {
    match s.pcs[t]
    case Send(w, send) =>
      if w.None? {
        PlainKeepsOther(s, t, send, pick, u);
      } else {
        SendKeepsOther(s, t, w.value, send, pick, u);
      }
    case Close(c, close) => CloseKeepsOther(s, t, c, close, u);
    case Set(c, until, set_) => SetKeepsOther(s, t, c, until, set_, u);
  }

  lemma StepKeeps(s: State, t: Tid, pick: Pick)
    requires Inv(s) && Enabled(s, Step(t, pick))
    ensures Inv(ApplyStep(s, t, s.pcs[t], pick))
  {
    var s' := ApplyStep(s, t, s.pcs[t], pick);
    StepKeepsMover(s, t, pick);
    StepMovesOne(s, t, pick);
    forall u | u in s'.pcs && u != t
      ensures ThreadOk(s', u, s'.pcs[u])
    {
      StepKeepsOther(s, t, pick, u);
    }
  }

  lemma EventKeeps(s: State, e: Event)
    requires Inv(s) && Enabled(s, e)
    ensures Inv(Apply(s, e))
  {
    if e.Step? {
      StepKeeps(s, e.t, e.pick);
    } else {
      var s' := Apply(s, e);
      forall u | u in s'.pcs
        ensures ThreadOk(s', u, s'.pcs[u])
      {
        assert u in s.pcs ==> ThreadOk(s, u, s.pcs[u]);
      }
    }
  }

  lemma {:induction false} RunKeeps(s: State, es: seq<Event>)
    requires Inv(s) && Run(s, es)
    ensures Inv(After(s, es))
    decreases |es|
  {
    if es != [] {
      EventKeeps(s, es[0]);
      RunKeeps(Apply(s, es[0]), es[1..]);
    }
  }

  lemma ReachableInv(s: State)
    requires Reachable(s)
    ensures Inv(s)
  {
    var es :| Run(START, es) && After(START, es) == s;
    RunKeeps(START, es);
  }

  // What every interleaving guarantees

  function Holders(s: State): set<Tid> {
    set t | t in s.pcs && Holds(s.pcs[t])
  }

  /**
   * On every path, successful or not, there is exactly one permit, free or held by one
   * goroutine, and whoever returns it finds the channel empty and cannot block.
   */
  lemma OnePermit(s: State)
    requires Reachable(s)
    ensures s.permit.free + |Holders(s)| == 1
    ensures forall t :: t in s.pcs && Holds(s.pcs[t]) ==> s.permit.free == 0
  {
    ReachableInv(s);
    if s.permit.holder.None? {
      assert forall t :: t in s.pcs ==> ThreadOk(s, t, s.pcs[t]);
      assert Holders(s) == {};
    } else {
      var h := s.permit.holder.value;
      assert ThreadOk(s, h, s.pcs[h]);
      assert Holders(s) == {h};
    }
  }

  /** Packets reach the socket in strictly increasing LMID order. */
  lemma WireOrder(s: State, i: nat, j: nat)
    requires Reachable(s) && i < j < |s.out.wire|
    ensures s.out.wire[i].lmid < s.out.wire[j].lmid
  {
    ReachableInv(s);
  }

  /**
   * No deadline leak: in every state, while no active writer is recorded the socket's deadline
   * is clear, and a deadline on the socket is the active writer's.
   */
  lemma NoDeadlineLeak(s: State)
    requires Reachable(s) && s.env.open
    ensures s.gate.active.None? ==> s.gate.socket == Clear
    ensures s.gate.socket.At? ==> s.gate.active == Some(s.gate.socket.owner)
  {
    ReachableInv(s);
  }

  /**
   * So a UDP write in progress runs under no deadline or under its own Conn's, and an ACK,
   * heartbeat, BIND or DISC runs under none.
   */
  lemma WritesUnderOwnDeadline(s: State, t: Tid)
    requires Reachable(s) && s.env.open
    requires t in s.pcs && s.pcs[t].Send? && s.pcs[t].send.Writing?
    ensures s.gate.active == s.pcs[t].w
    ensures s.gate.socket.At? ==> s.pcs[t].w == Some(s.gate.socket.owner)
    ensures s.pcs[t].w.None? ==> s.gate.socket == Clear
  {
    ReachableInv(s);
    assert ThreadOk(s, t, s.pcs[t]);
  }

  /**
   * No lost interrupt: once signalClosed has returned for a Conn, a write still in
   * progress for it has an expired socket deadline and cannot succeed, and a writer
   * still waiting for the permit can leave.
   */
  lemma NoLostInterrupt(s: State, c: ConnId, t: Tid)
    requires Reachable(s) && c in s.signalled
    requires t in s.pcs && s.pcs[t].Send? && s.pcs[t].w == Some(c)
    ensures s.env.open && s.pcs[t].send.Writing? ==> SocketExpired(s) && s.gate.socket.owner == c
    ensures s.pcs[t].send.Writing? ==> !Enabled(s, Step(t, Ahead))
    ensures s.pcs[t].send.Parked? ==> Enabled(s, Step(t, Fail))
    ensures s.pcs[t].send.Queued? ==>
              Enabled(s, Step(t, Ahead)) && Apply(s, Step(t, Ahead)).pcs == s.pcs[t := Finished]
  {
    ReachableInv(s);
    assert ThreadOk(s, t, s.pcs[t]);
  }

  /** The packets the socket accepted from one Conn. */
  function SentBy(wire: seq<Sent>, c: ConnId): seq<Sent> {
    if wire == [] then []
    else
      var last := wire[|wire| - 1];
      SentBy(wire[..|wire| - 1], c) + if last.writer == Some(c) then [last] else []
  }

  lemma StepWire(s: State, e: Event, c: ConnId)
    requires Inv(s) && Enabled(s, e) && c in s.signalled
    ensures c in Apply(s, e).signalled
    ensures SentBy(Apply(s, e).out.wire, c) == SentBy(s.out.wire, c)
  {
    if e.Step? && s.pcs[e.t].Send? && s.pcs[e.t].send.Writing? && e.pick == Ahead {
      assert ThreadOk(s, e.t, s.pcs[e.t]);
      var wire' := Apply(s, e).out.wire;
      assert wire'[..|wire'| - 1] == s.out.wire;
      assert s.pcs[e.t].w != Some(c);
    } else {
      StepWireOnlyGrowsInWrite(s, e);
    }
  }

  lemma StepWireOnlyGrowsInWrite(s: State, e: Event)
    requires Enabled(s, e)
    requires !(e.Step? && s.pcs[e.t].Send? && s.pcs[e.t].send.Writing? && e.pick == Ahead)
    ensures Apply(s, e).out.wire == s.out.wire && s.signalled <= Apply(s, e).signalled
  {
  }

  lemma {:induction false} SilentRun(s: State, es: seq<Event>, c: ConnId)
    requires Inv(s) && Run(s, es) && c in s.signalled
    ensures SentBy(After(s, es).out.wire, c) == SentBy(s.out.wire, c)
    decreases |es|
  {
    if es != [] {
      EventKeeps(s, es[0]);
      StepWire(s, es[0], c);
      SilentRun(Apply(s, es[0]), es[1..], c);
    }
  }

  /** Over whole runs: nothing of a Conn reaches the socket after its signalClosed returned. */
  lemma SilentAfterClose(s: State, es: seq<Event>, c: ConnId)
    requires Reachable(s) && c in s.signalled && Run(s, es)
    ensures SentBy(After(s, es).out.wire, c) == SentBy(s.out.wire, c)
  {
    ReachableInv(s);
    SilentRun(s, es, c);
  }
}

/**
 * Coalesced acknowledgements: the reader goroutine counts packets and asks for ACKs,
 * timers fire and flush them, other goroutines send, and Close stops the timer, all
 * interleaved. One step is one critical section; ackMu is held across the three steps
 * of a flush.
 */
module AckCoalescing {
  import opened Bytes
  import opened Codec
  import opened Options
  import opened PtcpSession

  type FlushId = nat

  const MAX_SEND_ERRORS := 5

  /** A flush timer: armed, fired and waiting for ackMu, or inside flushACK. */
  datatype FlushPc = Armed | Fired | Locked | SentAck

  datatype ReaderPc = Idle | MustSchedule

  datatype Closing = Open | DoneClosed | TimerStopped

  /** An attempted ACK: its header, and how many packets had been counted when it was built. */
  datatype Ack = Ack(header: Header, seen: nat)

  datatype Inbound = Inbound(sess: Counters, received: seq<Packet>, reader: ReaderPc, scheduled: set<nat>)

  datatype Acks = Acks(
    pending: bool,                   // ackPending
    flushes: map<FlushId, FlushPc>,  // every flush that has neither finished nor been stopped
    timer: Option<FlushId>,          // ackTimer
    mu: Option<FlushId>,             // the flush that holds ackMu
    errs: nat)                       // consecutiveSendErrs

  datatype Trail = Trail(acks: seq<Ack>, outcomes: seq<bool>, closeCalls: nat)

  datatype State = State(inb: Inbound, ack: Acks, trail: Trail, closing: Closing)

  /** A tunnel starts with whatever counters its handshake left. */
  function Start(init: Counters): State {
    State(Inbound(init, [], Idle, {}), Acks(false, map[], None, None, 0), Trail([], [], 0), Open)
  }

  datatype Event =
    | Receive(p: Packet)
    | Schedule(newId: FlushId)
    | Fire(f: FlushId)
    | Lock(f: FlushId)
    | SendAck(f: FlushId)
    | Unlock(f: FlushId, ok: bool)
    | SendOther(body: Body)
    | CloseDone
    | StopTimer

  /** The bodies the reader acknowledges: ACKs are never acknowledged, SYNC is answered in kind. */
  predicate WantsAck(b: Body) {
    b.Status? || b.Payload? || b.Heartbeat?
  }

  predicate At(s: State, f: FlushId, pc: FlushPc) {
    f in s.ack.flushes && s.ack.flushes[f] == pc
  }

  predicate Enabled(s: State, e: Event) {
    match e
    case Receive(_) => s.inb.reader == Idle
    case Schedule(newId) => s.inb.reader == MustSchedule && s.ack.mu.None? && newId !in s.ack.flushes
    case Fire(f) => At(s, f, Armed)
    case Lock(f) => At(s, f, Fired) && s.ack.mu.None?
    case SendAck(f) => At(s, f, Locked)
    case Unlock(f, _) => At(s, f, SentAck)
    case SendOther(_) => true
    case CloseDone => s.closing == Open
    case StopTimer => s.closing == DoneClosed && s.ack.mu.None?
  }

  function Apply(s: State, e: Event): State
    requires Enabled(s, e)
  {
    match e
    case Receive(p) =>
      s.(inb := Inbound(AfterRecv(s.inb.sess, p), s.inb.received + [p],
                        if WantsAck(p.body) then MustSchedule else Idle, s.inb.scheduled))
    case Schedule(newId) =>
      s.(inb := s.inb.(reader := Idle, scheduled := s.inb.scheduled + {|s.inb.received|}),
         ack := if s.ack.pending then s.ack
                else s.ack.(pending := true, flushes := s.ack.flushes[newId := Armed], timer := Some(newId)))
    case Fire(f) => s.(ack := s.ack.(flushes := s.ack.flushes[f := Fired]))
    case Lock(f) => s.(ack := s.ack.(flushes := s.ack.flushes[f := Locked], mu := Some(f)))
    case SendAck(f) =>
      s.(inb := s.inb.(sess := AfterSend(s.inb.sess, Empty)),
         ack := s.ack.(flushes := s.ack.flushes[f := SentAck]),
         trail := s.trail.(acks := s.trail.acks + [Ack(NextPacket(s.inb.sess, Empty).header, |s.inb.received|)]))
    case Unlock(f, ok) =>
      var errs := if ok then 0 else s.ack.errs + 1;
      s.(ack := Acks(false, s.ack.flushes - {f}, s.ack.timer, None, errs),
         trail := s.trail.(
           outcomes := s.trail.outcomes + [ok],
           closeCalls := s.trail.closeCalls + if errs >= MAX_SEND_ERRORS then 1 else 0))
    case SendOther(body) => s.(inb := s.inb.(sess := AfterSend(s.inb.sess, body)))
    case CloseDone => s.(closing := DoneClosed)
    case StopTimer =>
      s.(closing := TimerStopped,
         ack := if s.ack.timer.Some? && At(s, s.ack.timer.value, Armed)
                then s.ack.(flushes := s.ack.flushes - {s.ack.timer.value})
                else s.ack)
  }

  predicate Run(s: State, es: seq<Event>)
    decreases |es|
  {
    es == [] || (Enabled(s, es[0]) && Run(Apply(s, es[0]), es[1..]))
  }

  function After(s: State, es: seq<Event>): State
    requires Run(s, es)
    decreases |es|
  {
    if es == [] then s else After(Apply(s, es[0]), es[1..])
  }

  ghost predicate Reachable(init: Counters, s: State) {
    exists es :: Run(Start(init), es) && After(Start(init), es) == s
  }

  // What an acknowledgement ought to say

  function RecvBytes(ps: seq<Packet>): nat {
    if ps == [] then 0 else RecvBytes(ps[..|ps| - 1]) + Len(ps[|ps| - 1].body)
  }

  /** Recv and RMID as an ACK sent right after the first k packets would carry them. */
  ghost predicate Acknowledges(h: Header, init: Counters, received: seq<Packet>, k: nat)
    requires k <= |received|
  {
    && h.recv == Wrap32(init.recv + RecvBytes(received[..k]))
    && h.rmid == (if k == 0 then init.rmid else received[k - 1].header.lmid)
  }

  // The invariant

  ghost predicate InboundOk(init: Counters, s: State) {
    var inb := s.inb;
    && inb.sess.recv == Wrap32(init.recv + RecvBytes(inb.received))
    && inb.sess.rmid == (if inb.received == [] then init.rmid else inb.received[|inb.received| - 1].header.lmid)
    && (inb.reader == MustSchedule ==> inb.received != [] && Acknowledged(inb.received[|inb.received| - 1].body))
    && (forall p :: p in inb.scheduled <==> Due(inb, p))
  }

  /** The bodies that call for an ACK; an ACK itself, a SYNC, a BIND and a command do not. */
  predicate Acknowledged(b: Body) {
    match b
    case Payload(_, _) => true
    case Status(_, _) => true
    case Heartbeat => true
    case Empty => false
    case Sync => false
    case Bind(_, _) => false
    case Command(_) => false
  }

  /** scheduleACK has been called for packet p, which counts from 1. */
  predicate Due(inb: Inbound, p: int) {
    && 0 < p <= |inb.received| && Acknowledged(inb.received[p - 1].body)
    && (inb.reader == MustSchedule ==> p < |inb.received|)
  }

  ghost predicate TrailOk(init: Counters, s: State) {
    var acks := s.trail.acks;
    && (forall k :: 0 <= k < |acks| ==>
          acks[k].seen <= |s.inb.received| && Acknowledges(acks[k].header, init, s.inb.received, acks[k].seen))
    && (forall j, k :: 0 <= j < k < |acks| ==> acks[j].seen <= acks[k].seen)
    && s.ack.errs == TrailingFailures(s.trail.outcomes)
  }

  function TrailingFailures(outcomes: seq<bool>): nat {
    if outcomes == [] || outcomes[|outcomes| - 1] then 0
    else 1 + TrailingFailures(outcomes[..|outcomes| - 1])
  }

  /** While the timer has not been stopped, a pending ACK is exactly one live flush. */
  ghost predicate FlushOk(s: State) {
    && (s.ack.mu.Some? ==> At(s, s.ack.mu.value, Locked) || At(s, s.ack.mu.value, SentAck))
    && (forall f: FlushId :: At(s, f, Locked) || At(s, f, SentAck) ==> s.ack.mu == Some(f))
    && (s.closing != TimerStopped ==>
          && (forall f: FlushId :: At(s, f, Armed) ==> s.ack.timer == Some(f))
          && if s.ack.pending then exists f :: s.ack.flushes.Keys == {f} else s.ack.flushes == map[])
  }

  function LastSeen(s: State): nat {
    if s.trail.acks == [] then 0 else s.trail.acks[|s.trail.acks| - 1].seen
  }

  /** A flush that has yet to read the counters. */
  ghost predicate FlushAhead(s: State) {
    exists f: FlushId :: At(s, f, Armed) || At(s, f, Fired) || At(s, f, Locked)
  }

  ghost predicate CoverOk(s: State) {
    s.closing != TimerStopped ==>
      forall p :: p in s.inb.scheduled ==> p <= LastSeen(s) || FlushAhead(s)
  }

  ghost predicate Inv(init: Counters, s: State) {
    InboundOk(init, s) && TrailOk(init, s) && FlushOk(s) && CoverOk(s)
  }

  lemma ReceiveKeeps(init: Counters, s: State, p: Packet)
    requires Inv(init, s) && Enabled(s, Receive(p))
    ensures Inv(init, Apply(s, Receive(p)))
  {
    var s' := Apply(s, Receive(p));
    var n := |s.inb.received|;
    assert s'.inb.received[..n] == s.inb.received;
    WrapAdd(init.recv + RecvBytes(s.inb.received), Len(p.body));
    forall k | 0 <= k < |s.trail.acks|
      ensures Acknowledges(s.trail.acks[k].header, init, s'.inb.received, s.trail.acks[k].seen)
    {
      var seen := s.trail.acks[k].seen;
      assert s'.inb.received[..seen] == s.inb.received[..seen];
    }
    FlushFrame(s, s');
  }

  /** Events that leave the flushes alone keep what is said about them. */
  lemma FlushFrame(s: State, s': State)
    requires FlushOk(s) && CoverOk(s)
    requires s'.ack.flushes == s.ack.flushes && s'.ack.mu == s.ack.mu && s'.ack.pending == s.ack.pending
    requires s'.ack.timer == s.ack.timer
    requires s'.trail.acks == s.trail.acks && s'.inb.scheduled == s.inb.scheduled
    requires s'.closing == s.closing || (s'.closing == DoneClosed && s.closing == Open)
    ensures FlushOk(s') && CoverOk(s')
  {
    forall f
      ensures At(s', f, Armed) == At(s, f, Armed) && At(s', f, Fired) == At(s, f, Fired)
      ensures At(s', f, Locked) == At(s, f, Locked) && At(s', f, SentAck) == At(s, f, SentAck)
    {
    }
  }

  lemma ScheduleKeeps(init: Counters, s: State, newId: FlushId)
    requires Inv(init, s) && Enabled(s, Schedule(newId))
    ensures Inv(init, Apply(s, Schedule(newId)))
  {
    var s' := Apply(s, Schedule(newId));
    if s.closing != TimerStopped {
      if s.ack.pending {
        var f :| s.ack.flushes.Keys == {f};
        assert f in s.ack.flushes && !At(s, f, Locked) && !At(s, f, SentAck);
        assert At(s', f, Armed) || At(s', f, Fired);
      } else {
        assert s'.ack.flushes.Keys == {newId};
        assert At(s', newId, Armed);
      }
    }
  }

  lemma FlushStepKeeps(init: Counters, s: State, e: Event)
    requires Inv(init, s) && Enabled(s, e) && (e.Fire? || e.Lock?)
    ensures Inv(init, Apply(s, e))
  {
    var s' := Apply(s, e);
    assert s'.ack.flushes.Keys == s.ack.flushes.Keys;
    assert At(s', e.f, Fired) || At(s', e.f, Locked);
  }

  lemma SendAckKeeps(init: Counters, s: State, f: FlushId)
    requires Inv(init, s) && Enabled(s, SendAck(f))
    ensures Inv(init, Apply(s, SendAck(f)))
  {
    var s' := Apply(s, SendAck(f));
    var n := |s.inb.received|;
    assert s.inb.received[..n] == s.inb.received;
    assert s'.ack.flushes.Keys == s.ack.flushes.Keys;
  }

  lemma UnlockKeeps(init: Counters, s: State, f: FlushId, ok: bool)
    requires Inv(init, s) && Enabled(s, Unlock(f, ok))
    ensures Inv(init, Apply(s, Unlock(f, ok)))
  {
    var s' := Apply(s, Unlock(f, ok));
    var os := s.trail.outcomes;
    assert s'.trail.outcomes[..|os|] == os;
    if s.closing != TimerStopped {
      assert s'.ack.flushes == map[] by {
        if s.ack.pending {
          var g :| s.ack.flushes.Keys == {g};
          assert g == f;
        }
      }
      assert !FlushAhead(s);
    }
  }

  lemma StopTimerKeeps(init: Counters, s: State)
    requires Inv(init, s) && Enabled(s, StopTimer)
    ensures Inv(init, Apply(s, StopTimer))
  {
  }

  lemma EventKeeps(init: Counters, s: State, e: Event)
    requires Inv(init, s) && Enabled(s, e)
    ensures Inv(init, Apply(s, e))
  {
    match e
    case Receive(p) => ReceiveKeeps(init, s, p);
    case Schedule(newId) => ScheduleKeeps(init, s, newId);
    case Fire(_) => FlushStepKeeps(init, s, e);
    case Lock(_) => FlushStepKeeps(init, s, e);
    case SendAck(f) => SendAckKeeps(init, s, f);
    case Unlock(f, ok) => UnlockKeeps(init, s, f, ok);
    case SendOther(_) => FlushFrame(s, Apply(s, e));
    case CloseDone => FlushFrame(s, Apply(s, e));
    case StopTimer => StopTimerKeeps(init, s);
  }

  lemma {:induction false} RunKeeps(init: Counters, s: State, es: seq<Event>)
    requires Inv(init, s) && Run(s, es)
    ensures Inv(init, After(s, es))
    decreases |es|
  {
    if es != [] {
      EventKeeps(init, s, es[0]);
      RunKeeps(init, Apply(s, es[0]), es[1..]);
    }
  }

  lemma ReachableInv(init: Counters, s: State)
    requires Reachable(init, s)
    ensures Inv(init, s)
  {
    var es :| Run(Start(init), es) && After(Start(init), es) == s;
    RunKeeps(init, Start(init), es);
  }

  // What coalescing guarantees

  /** ackPending holds exactly when there is a flush, and then there is exactly one. */
  lemma PendingIsOneFlush(init: Counters, s: State)
    requires Reachable(init, s) && s.closing != TimerStopped
    ensures s.ack.pending <==> s.ack.flushes != map[]
    ensures |s.ack.flushes| <= 1
  {
    ReachableInv(init, s);
    if s.ack.pending {
      var f :| s.ack.flushes.Keys == {f};
      assert f in s.ack.flushes;
      assert |s.ack.flushes| == |s.ack.flushes.Keys|;
    }
  }

  /** With an idle reader, scheduleACK has been called for exactly the payloads, statuses and heartbeats received. */
  lemma ScheduledAreThese(init: Counters, s: State, p: nat)
    requires Reachable(init, s) && s.inb.reader == Idle
    ensures p in s.inb.scheduled <==>
            && 0 < p <= |s.inb.received|
            && var b := s.inb.received[p - 1].body; b.Payload? || b.Status? || b.Heartbeat?
  {
    ReachableInv(init, s);
  }

  /**
   * Every packet scheduleACK was called for, also when it returned early, is covered:
   * an ACK was attempted whose Recv and RMID were read after the packet was counted, or
   * a flush that has yet to read them is on its way.
   */
  lemma ScheduledIsCovered(init: Counters, s: State, p: nat)
    requires Reachable(init, s) && s.closing != TimerStopped && p in s.inb.scheduled
    ensures FlushAhead(s)
         || exists k :: 0 <= k < |s.trail.acks| && p <= s.trail.acks[k].seen <= |s.inb.received|
                        && Acknowledges(s.trail.acks[k].header, init, s.inb.received, s.trail.acks[k].seen)
  {
    ReachableInv(init, s);
    if !FlushAhead(s) {
      var k := |s.trail.acks| - 1;
      assert p <= s.trail.acks[k].seen;
    }
  }

  /** So every payload, status and heartbeat received is covered. */
  lemma ReceivedIsCovered(init: Counters, s: State, p: nat)
    requires Reachable(init, s) && s.closing != TimerStopped && s.inb.reader == Idle && 0 < p <= |s.inb.received|
    requires var b := s.inb.received[p - 1].body; b.Payload? || b.Status? || b.Heartbeat?
    ensures FlushAhead(s)
         || exists k :: 0 <= k < |s.trail.acks| && p <= s.trail.acks[k].seen <= |s.inb.received|
                        && Acknowledges(s.trail.acks[k].header, init, s.inb.received, s.trail.acks[k].seen)
  {
    ScheduledAreThese(init, s, p);
    ScheduledIsCovered(init, s, p);
  }

  /** Steps of the timer and the goroutine of flush f, and of nobody else. */
  ghost predicate OwnSteps(es: seq<Event>, f: FlushId) {
    forall e :: e in es ==> (e.Fire? || e.Lock? || e.SendAck?) && e.f == f
  }

  lemma DriveFlush(init: Counters, s: State, f: FlushId, left: nat) returns (es: seq<Event>)
    requires Inv(init, s) && s.closing != TimerStopped
    requires match left
             case 1 => At(s, f, Locked)
             case 2 => At(s, f, Fired)
             case 3 => At(s, f, Armed)
             case _ => false
    ensures |es| == left && Run(s, es) && OwnSteps(es, f)
    ensures After(s, es).inb.scheduled == s.inb.scheduled
    ensures forall p :: p in s.inb.scheduled ==> p <= LastSeen(After(s, es))
    decreases left
  {
    var g :| s.ack.flushes.Keys == {g};
    assert f in s.ack.flushes && f == g;
    var e := if left == 1 then SendAck(f) else if left == 2 then Lock(f) else Fire(f);
    EventKeeps(init, s, e);
    var rest := [];
    if left > 1 {
      rest := DriveFlush(init, Apply(s, e), f, left - 1);
    }
    es := [e] + rest;
    assert es[1..] == rest;
  }

  /**
   * A flush on its way needs nobody else: its own next steps alone, at most three, build
   * the ACK that covers every packet scheduled so far.
   */
  lemma FlushNeedsNobody(init: Counters, s: State) returns (f: FlushId, es: seq<Event>)
    requires Reachable(init, s) && s.closing != TimerStopped && FlushAhead(s)
    ensures |es| <= 3 && Run(s, es) && OwnSteps(es, f)
    ensures forall p :: p in s.inb.scheduled ==> p <= LastSeen(After(s, es))
  {
    ReachableInv(init, s);
    f :| At(s, f, Armed) || At(s, f, Fired) || At(s, f, Locked);
    es := DriveFlush(init, s, f, if At(s, f, Locked) then 1 else if At(s, f, Fired) then 2 else 3);
  }

  /**
   * Close stops the timer: no flush is left armed, so only one that has fired already can still
   * run, and nothing else changes.
   */
  lemma CloseStopsTimer(init: Counters, s: State, f: FlushId)
    requires Reachable(init, s) && Enabled(s, StopTimer)
    ensures var s' := Apply(s, StopTimer);
            && !At(s', f, Armed)
            && (f in s.ack.flushes && s.ack.flushes[f] != Armed ==> f in s'.ack.flushes && s'.ack.flushes[f] == s.ack.flushes[f])
            && s'.inb == s.inb && s'.trail == s.trail
  {
    ReachableInv(init, s);
    assert At(s, f, Armed) ==> s.ack.timer == Some(f);
  }

  /** The flush closes the tunnel exactly when its own and the four previous attempts failed. */
  lemma ClosesAfterFiveFailures(init: Counters, s: State, f: FlushId, ok: bool)
    requires Reachable(init, s) && Enabled(s, Unlock(f, ok))
    ensures var s' := Apply(s, Unlock(f, ok));
            s.trail.closeCalls < s'.trail.closeCalls <==> TrailingFailures(s'.trail.outcomes) >= 5
  {
    ReachableInv(init, s);
    EventKeeps(init, s, Unlock(f, ok));
  }
}

/**
 * When a write gives up and when it goes out: the exact guards of sendPacketFor and
 * acquireSendPermit, with the deadline compared to the clock, and a run of the sender's own
 * steps that puts its packet on the wire whenever nothing stands in its way.
 */
module SendProgress {
  import opened Options
  import opened SendPath

  /** No deadline, or one that lies ahead. */
  predicate NotDue(until: Option<Time>, now: Time) {
    until.None? || now < until.value
  }

  /** At the top of the permit loop: a write leaves exactly if its Conn is closed or its deadline has come; else it waits. */
  lemma QueuedLeavesIff(s: State, t: Tid, c: ConnId)
    requires t in s.pcs && s.pcs[t] == Send(Some(c), Queued) && c in s.conns
    ensures Enabled(s, Step(t, Ahead))
    ensures var s' := Apply(s, Step(t, Ahead));
            && s' == s.(pcs := s'.pcs) && s'.pcs == s.pcs[t := s'.pcs[t]]
            && if s.conns[c].closed || (s.conns[c].deadline.Some? && s.conns[c].deadline.value <= s.env.now)
               then s'.pcs[t] == Finished
               else s'.pcs[t] == Send(Some(c), Parked(s.conns[c].deadline, s.conns[c].epoch))
  {
  }

  /**
   * In the select: it can leave exactly if the Conn was signalled, the tunnel is done or the
   * deadline it read has come; go around exactly if a deadline was set since; and take the
   * permit exactly if it is there, to keep it unless the tunnel is done.
   */
  lemma ParkedChoosesIff(s: State, t: Tid, c: ConnId, until: Option<Time>, epoch: nat)
    requires t in s.pcs && s.pcs[t] == Send(Some(c), Parked(until, epoch)) && c in s.conns
    ensures Enabled(s, Step(t, Fail)) <==>
            s.conns[c].chClosed || s.env.done || (until.Some? && until.value <= s.env.now)
    ensures Enabled(s, Step(t, Fail)) ==> Apply(s, Step(t, Fail)).pcs == s.pcs[t := Finished]
    ensures Enabled(s, Step(t, Again)) <==> epoch < s.conns[c].epoch
    ensures Enabled(s, Step(t, Again)) ==> Apply(s, Step(t, Again)).pcs == s.pcs[t := Send(Some(c), Queued)]
    ensures Enabled(s, Step(t, Ahead)) <==> s.permit.free > 0
    ensures Enabled(s, Step(t, Ahead)) ==>
              Apply(s, Step(t, Ahead)).pcs == s.pcs[t := Send(Some(c), Granted)] &&
              Apply(s, Step(t, Ahead)).permit.free == s.permit.free - 1
  {
  }

  /** The permit is kept exactly if the tunnel is not done; else it goes straight back. */
  lemma GrantedIff(s: State, t: Tid, c: ConnId)
    requires t in s.pcs && s.pcs[t] == Send(Some(c), Granted) && c in s.conns
    ensures Enabled(s, Step(t, Ahead))
    ensures Apply(s, Step(t, Ahead)) == s.(pcs := s.pcs[t := Send(Some(c), if s.env.done then Returning else Holding)])
  {
  }

  /** With the permit it reads closed and the deadline, and arms the socket exactly if neither forbids it. */
  lemma CheckingArmsIff(s: State, t: Tid, c: ConnId, until: Option<Time>, closed: bool)
    requires t in s.pcs && s.pcs[t] == Send(Some(c), Checking(until, closed)) && c in s.conns
    ensures Enabled(s, Step(t, Ahead))
    ensures var s' := Apply(s, Step(t, Ahead));
            && s'.gate.wd == None
            && if closed || (until.Some? && until.value <= s.env.now) || !s.env.open
               then s'.pcs == s.pcs[t := Send(Some(c), Returning)] && s'.gate.socket == s.gate.socket
               else && s'.pcs == s.pcs[t := Send(Some(c), Armed)] && s'.gate.active == Some(c)
                    && s'.gate.socket == if until.Some? then At(until.value, c) else Clear
  {
  }

  lemma HoldingReads(s: State, t: Tid, c: ConnId)
    requires t in s.pcs && s.pcs[t] == Send(Some(c), Holding) && c in s.conns
    ensures Enabled(s, Step(t, Ahead)) <==> s.gate.wd.None?
    ensures s.gate.wd.None? ==>
              Apply(s, Step(t, Ahead)).pcs == s.pcs[t := Send(Some(c), Checking(s.conns[c].deadline, s.conns[c].closed))]
  {
  }

  // Progress

  /** Nothing stands in the way of a write of Conn c, at any point before its UDP write is done. */
  predicate Unhindered(s: State, t: Tid, c: ConnId) {
    && t in s.pcs && s.pcs[t].Send? && s.pcs[t].w == Some(c) && c in s.conns
    && s.env.open && !s.env.done && !s.conns[c].closed && NotDue(s.conns[c].deadline, s.env.now)
    && match s.pcs[t].send
       case Queued => s.permit.free > 0 && s.gate.wd.None?
       case Parked(_, _) => s.permit.free > 0 && s.gate.wd.None?
       case Granted => s.gate.wd.None?
       case Holding => s.gate.wd.None?
       case Checking(until, closed) => !closed && NotDue(until, s.env.now)
       case Armed => s.gate.socket.At? ==> s.env.now < s.gate.socket.time
       case Writing(_) => s.gate.socket.At? ==> s.env.now < s.gate.socket.time
       case _ => false
  }

  function StepsToWire(send: SendPc): nat {
    match send
    case Queued => 7
    case Parked(_, _) => 6
    case Granted => 5
    case Holding => 4
    case Checking(_, _) => 3
    case Armed => 2
    case Writing(_) => 1
    case _ => 0
  }

  /** The LMID a write in this place has or will get. */
  function LmidOf(s: State, send: SendPc): nat {
    if send.Writing? then send.lmid else s.out.nextId
  }

  lemma StepAhead(s: State, t: Tid, c: ConnId)
    requires Unhindered(s, t, c)
    ensures Enabled(s, Step(t, Ahead))
    ensures var s' := Apply(s, Step(t, Ahead));
            if s.pcs[t].send.Writing? then s'.out.wire == s.out.wire + [Sent(s.pcs[t].send.lmid, Some(c))]
            else && Unhindered(s', t, c) && s'.out.wire == s.out.wire
                 && LmidOf(s', s'.pcs[t].send) == LmidOf(s, s.pcs[t].send)
                 && StepsToWire(s'.pcs[t].send) + 1 == StepsToWire(s.pcs[t].send)
  {
  }

  /** Its own steps alone, one for each stage, put its packet on the wire. */
  lemma {:induction false} WriteGoesOut(s: State, t: Tid, c: ConnId) returns (es: seq<Event>)
    requires Unhindered(s, t, c)
    ensures Run(s, es) && (forall e :: e in es ==> e == Step(t, Ahead)) && |es| == StepsToWire(s.pcs[t].send)
    ensures After(s, es).out.wire == s.out.wire + [Sent(LmidOf(s, s.pcs[t].send), Some(c))]
    decreases StepsToWire(s.pcs[t].send)
  {
    hide Apply, Enabled;
    StepAhead(s, t, c);
    var e := Step(t, Ahead);
    var rest := [];
    if !s.pcs[t].send.Writing? {
      rest := WriteGoesOut(Apply(s, e), t, c);
    } else {
      assert StepsToWire(s.pcs[t].send) == 1;
    }
    es := [e] + rest;
    assert es[1..] == rest;
  }

  /** The same for an ACK, heartbeat, BIND, DISC or SYNC, which no Conn can hinder. */
  predicate PlainUnhindered(s: State, t: Tid) {
    && t in s.pcs && s.pcs[t].Send? && s.pcs[t].w == None && s.env.open && s.gate.socket == Clear
    && match s.pcs[t].send
       case Queued => s.permit.free > 0
       case Armed => true
       case Writing(_) => true
       case _ => false
  }

  function PlainSteps(send: SendPc): nat {
    match send
    case Queued => 3
    case Armed => 2
    case Writing(_) => 1
    case _ => 0
  }

  lemma {:induction false} PlainRun(s: State, t: Tid) returns (es: seq<Event>)
    requires PlainUnhindered(s, t)
    ensures Run(s, es) && (forall e :: e in es ==> e == Step(t, Ahead)) && |es| == PlainSteps(s.pcs[t].send)
    ensures After(s, es).out.wire == s.out.wire + [Sent(LmidOf(s, s.pcs[t].send), None)]
    decreases PlainSteps(s.pcs[t].send)
  {
    var e := Step(t, Ahead);
    var rest := [];
    if !s.pcs[t].send.Writing? {
      rest := PlainRun(Apply(s, e), t);
    }
    es := [e] + rest;
    assert es[1..] == rest;
  }

  /** In every reachable state with a free permit and an open socket it goes out within three steps of its own. */
  lemma PlainGoesOut(s: State, t: Tid) returns (es: seq<Event>)
    requires Reachable(s) && t in s.pcs && s.pcs[t] == Send(None, Queued) && s.permit.free > 0 && s.env.open
    ensures Run(s, es) && (forall e :: e in es ==> e == Step(t, Ahead)) && |es| == 3
    ensures After(s, es).out.wire == s.out.wire + [Sent(s.out.nextId, None)]
  {
    ReachableInv(s);
    es := PlainRun(s, t);
  }
}

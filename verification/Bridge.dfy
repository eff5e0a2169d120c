/**
 * The bridge: connection slots, the negotiation token and the realms of its one tunnel,
 * for any interleaving of accepted connections, their handlers, the device and shutdown.
 */
module Bridge {
  import opened Options

  type Hid = nat
  type RealmId = nat
  type ConnId = nat

  /** connectionLimit. */
  function ConnectionLimit(maxConns: nat, maxRealms: nat): (limit: nat)
    ensures limit <= maxConns && limit <= maxRealms && (limit == maxConns || limit == maxRealms)
  {
    if maxConns < maxRealms then maxConns else maxRealms
  }

  /**
   * Where a handler is: reading the first request, waiting for the token, dialing, with a
   * failed dial, negotiating over its realm, streaming, closing the realm's Conn, at the
   * deferred finishNegotiation, or on its way out.
   */
  datatype Phase = Reading | Waiting | Dialing | Failed | Negotiating | Streaming | Closing | Finishing | Leaving

  datatype Conn = Conn(id: ConnId, realm: RealmId)

  /**
   * conn is the Conn it dialed; deletes says that its Close was the first and so removes the
   * realm; done is the finishOnce of openRealm. The last two count its lock and unlock calls.
   */
  datatype Handler = Handler(phase: Phase, conn: Option<Conn>, deletes: bool, done: bool, locks: nat, unlocks: nat)

  const ACCEPTED := Handler(Reading, None, false, false, 0, 0)

  /** An entry of the tunnel's realm map, and the handler whose Dial made it. */
  datatype Entry = Entry(conn: ConnId, owner: Hid)

  /** The map, the Conns made so far, and those taken out of it that are to be, or are, signalled closed. */
  datatype Tunnel = Tunnel(
    realms: map<RealmId, Entry>, made: nat, toSignal: set<ConnId>, signalled: set<ConnId>, closed: bool)

  /**
   * token is the element in negotiateSem, with the handler that put it there; taking it out
   * does not look at who that was.
   */
  datatype State = State(limit: nat, handlers: map<Hid, Handler>, token: Option<Hid>, tunnel: Tunnel)

  function Start(maxConns: nat, maxRealms: nat): State {
    State(ConnectionLimit(maxConns, maxRealms), map[], None, Tunnel(map[], 0, {}, {}, false))
  }

  // Steps

  datatype Action =
    | Request        // a valid first request
    | GiveUp         // an invalid one, or no token in time
    | Lock
    | Install(r: RealmId)
    | Retry          // an attempt timed out: its realm is removed
    | DialFails      // with the last attempt's realm removed, or none installed
    | Granted
    | Play           // the handover: finishNegotiation
    | CloseDevice    // closeConn(device) begins
    | DeviceClosed   // and ends
    | Finish         // finish after a failed dial, or the deferred finishNegotiation
    | Leave          // upstream closed, slot given back

  /** The reader drops a realm and signals its Conn later; Close does so with all of them. */
  datatype Event = Accept(h: Hid) | Act(h: Hid, a: Action) | Disconnect(r: RealmId) | Signal(c: ConnId) | CloseTunnel

  function Put(s: State, h: Hid, handler: Handler): State {
    s.(handlers := s.handlers[h := handler])
  }

  function Delete(t: Tunnel, conn: Option<Conn>): Tunnel {
    if conn.Some? then t.(realms := t.realms - {conn.value.realm}) else t
  }

  /** finish: UnlockNegotiate, but only the first time. */
  function FinishOnce(s: State, h: Hid, next: Phase): State
    requires h in s.handlers
  {
    var handler := s.handlers[h];
    if handler.done then Put(s, h, handler.(phase := next))
    else Put(s.(token := None), h, handler.(phase := next, done := true, unlocks := handler.unlocks + 1))
  }

  predicate CanAct(s: State, h: Hid, a: Action) {
    && h in s.handlers
    && var handler := s.handlers[h];
       match a
       case Request => handler.phase == Reading
       case GiveUp => handler.phase == Reading || handler.phase == Waiting
       case Lock => handler.phase == Waiting && s.token == None
       case Install(r) =>
         handler.phase == Dialing && handler.conn == None && r !in s.tunnel.realms && !s.tunnel.closed
       case Retry => handler.phase == Dialing && handler.conn.Some?
       case DialFails => handler.phase == Dialing
       case Granted => handler.phase == Dialing && handler.conn.Some?
       case Play => handler.phase == Negotiating && (handler.done || s.token.Some?)
       case CloseDevice => (handler.phase == Negotiating || handler.phase == Streaming) && handler.conn.Some?
       case DeviceClosed => handler.phase == Closing
       case Finish => (handler.phase == Failed || handler.phase == Finishing) && (handler.done || s.token.Some?)
       case Leave => handler.phase == Leaving
  }

  function MakeConn(s: State, h: Hid, r: RealmId): State
    requires h in s.handlers
  {
    var t := s.tunnel;
    Put(s.(tunnel := t.(realms := t.realms[r := Entry(t.made, h)], made := t.made + 1)),
        h, s.handlers[h].(conn := Some(Conn(t.made, r))))
  }

  function BeginClose(s: State, h: Hid): State
    requires h in s.handlers && s.handlers[h].conn.Some?
  {
    var t, id := s.tunnel, s.handlers[h].conn.value.id;
    Put(s.(tunnel := t.(signalled := t.signalled + {id})),
        h, s.handlers[h].(phase := Closing, deletes := id !in t.signalled))
  }

  function ActOn(s: State, h: Hid, a: Action): State
    requires CanAct(s, h, a)
  {
    var handler := s.handlers[h];
    match a
    case Request => Put(s, h, handler.(phase := Waiting))
    case GiveUp => Put(s, h, handler.(phase := Leaving))
    case Lock => Put(s.(token := Some(h)), h, handler.(phase := Dialing, locks := handler.locks + 1))
    case Install(r) => MakeConn(s, h, r)
    case Retry => Put(s.(tunnel := Delete(s.tunnel, handler.conn)), h, handler.(conn := None))
    case DialFails => Put(s.(tunnel := Delete(s.tunnel, handler.conn)), h, handler.(phase := Failed, conn := None))
    case Granted => Put(s, h, handler.(phase := Negotiating))
    case Play => FinishOnce(s, h, Streaming)
    case CloseDevice => BeginClose(s, h)
    case DeviceClosed =>
      Put(s.(tunnel := if handler.deletes then Delete(s.tunnel, handler.conn) else s.tunnel),
          h, handler.(phase := Finishing))
    case Finish => FinishOnce(s, h, Leaving)
    case Leave => s.(handlers := s.handlers - {h})
  }

  predicate Enabled(s: State, e: Event) {
    match e
    case Accept(h) => h !in s.handlers && |s.handlers| < s.limit
    case Act(h, a) => CanAct(s, h, a)
    case Disconnect(r) => r in s.tunnel.realms
    case Signal(c) => c in s.tunnel.toSignal
    case CloseTunnel => true
  }

  function Apply(s: State, e: Event): State
    requires Enabled(s, e)
  {
    var t := s.tunnel;
    match e
    case Accept(h) => Put(s, h, ACCEPTED)
    case Act(h, a) => ActOn(s, h, a)
    case Disconnect(r) =>
      s.(tunnel := t.(realms := t.realms - {r}, toSignal := t.toSignal + {t.realms[r].conn}))
    case Signal(c) => s.(tunnel := t.(toSignal := t.toSignal - {c}, signalled := t.signalled + {c}))
    case CloseTunnel =>
      s.(tunnel := t.(realms := map[], closed := true,
                      toSignal := t.toSignal + set r | r in t.realms :: t.realms[r].conn))
  }

  predicate Run(s: State, es: seq<Event>)
    decreases |es|
  {
    es == [] || (Enabled(s, es[0]) && Run(Apply(s, es[0]), es[1..]))
  }

  function After(s: State, es: seq<Event>): State
    requires Run(s, es)
    decreases |es|
  {
    if es == [] then s else After(Apply(s, es[0]), es[1..])
  }

  ghost predicate Reachable(maxConns: nat, maxRealms: nat, s: State) {
    exists es :: Run(Start(maxConns, maxRealms), es) && After(Start(maxConns, maxRealms), es) == s
  }

  // Invariant

  /** Between taking the token and giving it back. */
  predicate Holds(handler: Handler) {
    handler.locks > handler.unlocks
  }

  /** The lock calls and the once flag of a handler, phase by phase. */
  predicate PhaseOk(handler: Handler) {
    && handler.unlocks <= handler.locks <= 1 && (handler.done <==> handler.unlocks == 1)
    && match handler.phase
       case Reading | Waiting => handler.locks == 0 && handler.conn == None
       case Dialing => Holds(handler)
       case Failed => Holds(handler) && handler.conn == None
       case Negotiating => Holds(handler) && handler.conn.Some?
       case Streaming => handler.done && handler.conn.Some?
       case Closing | Finishing => handler.locks == 1 && handler.conn.Some?
       case Leaving => !Holds(handler)
  }

  /** The token is in the channel exactly while the handler that put it there has not unlocked. */
  ghost predicate TokenOk(handlers: map<Hid, Handler>, token: Option<Hid>) {
    && (forall h :: h in handlers ==> PhaseOk(handlers[h]) && (Holds(handlers[h]) <==> token == Some(h)))
    && (token.Some? ==> token.value in handlers)
  }

  /** An entry belongs to a handler whose own Close has not removed it and that nobody has signalled. */
  ghost predicate EntryOk(handlers: map<Hid, Handler>, t: Tunnel, r: RealmId)
    requires r in t.realms
  {
    var e := t.realms[r];
    && e.owner in handlers && handlers[e.owner].conn == Some(Conn(e.conn, r))
    && e.conn < t.made && e.conn !in t.toSignal
    && var handler := handlers[e.owner];
       match handler.phase
       case Dialing | Negotiating | Streaming => e.conn !in t.signalled
       case Closing => handler.deletes
       case _ => false
  }

  /** Every Conn is made by one handler. */
  ghost predicate IdsOk(handlers: map<Hid, Handler>, made: nat) {
    && (forall h :: h in handlers && handlers[h].conn.Some? ==> handlers[h].conn.value.id < made)
    && (forall h, h' :: h in handlers && h' in handlers && SameConn(handlers[h], handlers[h']) ==> h == h')
  }

  predicate SameConn(a: Handler, b: Handler) {
    a.conn.Some? && b.conn.Some? && a.conn.value.id == b.conn.value.id
  }

  ghost predicate RealmsOk(handlers: map<Hid, Handler>, t: Tunnel) {
    && IdsOk(handlers, t.made)
    && (forall r :: r in t.realms ==> EntryOk(handlers, t, r))
    && (forall c :: c in t.toSignal ==> c < t.made) && (forall c :: c in t.signalled ==> c < t.made)
  }

  ghost predicate Inv(s: State) {
    |s.handlers| <= s.limit && TokenOk(s.handlers, s.token) && RealmsOk(s.handlers, s.tunnel)
  }

  lemma ActKeepsToken(s: State, h: Hid, a: Action)
    requires TokenOk(s.handlers, s.token) && CanAct(s, h, a)
    ensures TokenOk(ActOn(s, h, a).handlers, ActOn(s, h, a).token)
  {
    assert PhaseOk(s.handlers[h]);
  }

  /** A step of h leaves the entries of other handlers alone if it changes the tunnel only by deleting. */
  lemma OthersKeep(s: State, h: Hid, handler: Handler, t: Tunnel, r: RealmId)
    requires h in s.handlers && r in s.tunnel.realms && EntryOk(s.handlers, s.tunnel, r)
    requires s.tunnel.realms[r].owner != h && r in t.realms && t == s.tunnel.(realms := t.realms)
    requires t.realms[r] == s.tunnel.realms[r]
    ensures EntryOk(s.handlers[h := handler], t, r)
  {
  }

  /** Steps that make no Conn and signal none. */
  lemma PlainKeeps(s: State, h: Hid, a: Action)
    requires TokenOk(s.handlers, s.token) && RealmsOk(s.handlers, s.tunnel) && CanAct(s, h, a)
    requires !a.Install? && !a.CloseDevice? && !a.Leave?
    ensures RealmsOk(ActOn(s, h, a).handlers, ActOn(s, h, a).tunnel)
  {
    assert PhaseOk(s.handlers[h]);
    var s' := ActOn(s, h, a);
    forall r | r in s'.tunnel.realms
      ensures EntryOk(s'.handlers, s'.tunnel, r)
    {
      assert EntryOk(s.handlers, s.tunnel, r);
      if s.tunnel.realms[r].owner != h {
        OthersKeep(s, h, s'.handlers[h], s'.tunnel, r);
      }
    }
  }

  lemma LeaveKeeps(s: State, h: Hid)
    requires RealmsOk(s.handlers, s.tunnel) && CanAct(s, h, Leave)
    ensures RealmsOk(s.handlers - {h}, s.tunnel)
  {
  }

  lemma InstallKeeps(s: State, h: Hid, r: RealmId)
    requires TokenOk(s.handlers, s.token) && RealmsOk(s.handlers, s.tunnel) && CanAct(s, h, Install(r))
    ensures RealmsOk(MakeConn(s, h, r).handlers, MakeConn(s, h, r).tunnel)
  {
    var s' := MakeConn(s, h, r);
    forall x | x in s'.tunnel.realms
      ensures EntryOk(s'.handlers, s'.tunnel, x)
    {
      if x != r {
        assert EntryOk(s.handlers, s.tunnel, x);
      }
    }
  }

  lemma BeginCloseKeeps(s: State, h: Hid)
    requires TokenOk(s.handlers, s.token) && RealmsOk(s.handlers, s.tunnel) && CanAct(s, h, CloseDevice)
    ensures RealmsOk(BeginClose(s, h).handlers, BeginClose(s, h).tunnel)
  {
    var s' := BeginClose(s, h);
    forall r | r in s'.tunnel.realms
      ensures EntryOk(s'.handlers, s'.tunnel, r)
    {
      assert EntryOk(s.handlers, s.tunnel, r);
    }
  }

  lemma ActKeepsRealms(s: State, h: Hid, a: Action)
    requires TokenOk(s.handlers, s.token) && RealmsOk(s.handlers, s.tunnel) && CanAct(s, h, a)
    ensures RealmsOk(ActOn(s, h, a).handlers, ActOn(s, h, a).tunnel)
  {
    hide RealmsOk, TokenOk, MakeConn, BeginClose;
    match a
    case Install(r) => InstallKeeps(s, h, r);
    case CloseDevice => BeginCloseKeeps(s, h);
    case Leave => LeaveKeeps(s, h);
    case _ => PlainKeeps(s, h, a);
  }

  lemma ActKeepsSlots(s: State, h: Hid, a: Action)
    requires |s.handlers| <= s.limit && CanAct(s, h, a)
    ensures |ActOn(s, h, a).handlers| <= ActOn(s, h, a).limit == s.limit
  {
  }

  lemma ActKeeps(s: State, h: Hid, a: Action)
    requires Inv(s) && CanAct(s, h, a)
    ensures Inv(ActOn(s, h, a))
  {
    hide TokenOk, RealmsOk, ActOn, CanAct;
    ActKeepsToken(s, h, a);
    ActKeepsRealms(s, h, a);
    ActKeepsSlots(s, h, a);
  }

  lemma DisconnectKeeps(s: State, r: RealmId)
    requires RealmsOk(s.handlers, s.tunnel) && r in s.tunnel.realms
    ensures RealmsOk(s.handlers, Apply(s, Disconnect(r)).tunnel)
  {
    var t := Apply(s, Disconnect(r)).tunnel;
    assert EntryOk(s.handlers, s.tunnel, r);
    forall x | x in t.realms
      ensures EntryOk(s.handlers, t, x)
    {
      assert EntryOk(s.handlers, s.tunnel, x);
    }
  }

  lemma SignalKeeps(s: State, c: ConnId)
    requires RealmsOk(s.handlers, s.tunnel) && c in s.tunnel.toSignal
    ensures RealmsOk(s.handlers, Apply(s, Signal(c)).tunnel)
  {
  }

  lemma CloseKeeps(s: State)
    requires RealmsOk(s.handlers, s.tunnel)
    ensures RealmsOk(s.handlers, Apply(s, CloseTunnel).tunnel)
  {
  }

  lemma AcceptKeepsRealms(s: State, h: Hid)
    requires RealmsOk(s.handlers, s.tunnel) && h !in s.handlers
    ensures RealmsOk(s.handlers[h := ACCEPTED], s.tunnel)
  {
    forall r | r in s.tunnel.realms
      ensures EntryOk(s.handlers[h := ACCEPTED], s.tunnel, r)
    {
      assert EntryOk(s.handlers, s.tunnel, r);
    }
  }

  lemma AcceptKeepsToken(handlers: map<Hid, Handler>, token: Option<Hid>, h: Hid)
    requires TokenOk(handlers, token) && h !in handlers
    ensures TokenOk(handlers[h := ACCEPTED], token)
  {
  }

  lemma AcceptKeeps(s: State, h: Hid)
    requires Inv(s) && h !in s.handlers && |s.handlers| < s.limit
    ensures Inv(Put(s, h, ACCEPTED))
  {
    hide RealmsOk, TokenOk;
    AcceptKeepsRealms(s, h);
    AcceptKeepsToken(s.handlers, s.token, h);
    assert s.handlers[h := ACCEPTED].Keys == s.handlers.Keys + {h};
  }

  lemma OutsideKeeps(s: State, e: Event)
    requires Inv(s) && Enabled(s, e) && !e.Act?
    ensures Inv(Apply(s, e)) && Apply(s, e).limit == s.limit
  {
    hide RealmsOk, TokenOk;
    match e
    case Accept(h) => AcceptKeeps(s, h);
    case Disconnect(r) => DisconnectKeeps(s, r);
    case Signal(c) => SignalKeeps(s, c);
    case CloseTunnel => CloseKeeps(s);
  }

  lemma {:induction false} RunKeeps(s: State, es: seq<Event>)
    requires Inv(s) && Run(s, es)
    ensures Inv(After(s, es)) && After(s, es).limit == s.limit
    decreases |es|
  {
    hide TokenOk, RealmsOk;
    if es != [] {
      if es[0].Act? {
        ActKeeps(s, es[0].h, es[0].a);
      } else {
        OutsideKeeps(s, es[0]);
      }
      RunKeeps(Apply(s, es[0]), es[1..]);
    }
  }

  lemma ReachableInv(maxConns: nat, maxRealms: nat, s: State)
    requires Reachable(maxConns, maxRealms, s)
    ensures Inv(s) && s.limit == ConnectionLimit(maxConns, maxRealms)
  {
    var es :| Run(Start(maxConns, maxRealms), es) && After(Start(maxConns, maxRealms), es) == s;
    RunKeeps(Start(maxConns, maxRealms), es);
  }

  // Theorems

  /** At most one handler is between taking the negotiation token and finishing; so one dials at a time. */
  lemma OneNegotiation(maxConns: nat, maxRealms: nat, s: State, h: Hid, h': Hid)
    requires Reachable(maxConns, maxRealms, s) && h in s.handlers && h' in s.handlers
    requires Holds(s.handlers[h]) && Holds(s.handlers[h'])
    ensures h == h'
  {
    ReachableInv(maxConns, maxRealms, s);
  }

  /**
   * A successful lock is released exactly once on every path: a handler takes the token at
   * most once, has given it back when it leaves, and finds its own token, not another's,
   * whenever it is to give it back, so that it never blocks there.
   */
  lemma ReleasedExactlyOnce(maxConns: nat, maxRealms: nat, s: State, h: Hid)
    requires Reachable(maxConns, maxRealms, s) && h in s.handlers
    ensures s.handlers[h].unlocks <= s.handlers[h].locks <= 1
    ensures s.handlers[h].phase == Leaving ==> s.handlers[h].unlocks == s.handlers[h].locks
    ensures Holds(s.handlers[h]) <==> s.token == Some(h)
    ensures s.handlers[h].phase == Failed || s.handlers[h].phase == Finishing ==> CanAct(s, h, Finish)
    ensures s.handlers[h].phase == Negotiating ==> CanAct(s, h, Play)
  {
    ReachableInv(maxConns, maxRealms, s);
    assert PhaseOk(s.handlers[h]);
  }

  lemma {:induction false} OneEntryEach(realms: map<RealmId, Entry>, owners: set<Hid>)
    requires forall r :: r in realms ==> realms[r].owner in owners
    requires forall r, r' :: r in realms && r' in realms && realms[r].owner == realms[r'].owner ==> r == r'
    ensures |realms| <= |owners|
    decreases |owners|
  {
    if realms.Keys != {} {
      var r :| r in realms;
      var rest, others := realms - {r}, owners - {realms[r].owner};
      assert rest.Keys == realms.Keys - {r};
      OneEntryEach(rest, others);
      assert |owners| == |others| + 1;
    }
  }

  /** The realms in the tunnel's map never exceed the occupied slots, nor those either limit. */
  lemma RealmsAreBounded(maxConns: nat, maxRealms: nat, s: State)
    requires Reachable(maxConns, maxRealms, s)
    ensures |s.tunnel.realms| <= |s.handlers| <= maxConns
    ensures |s.handlers| <= maxRealms
  {
    ReachableInv(maxConns, maxRealms, s);
    forall r | r in s.tunnel.realms
      ensures EntryOk(s.handlers, s.tunnel, r)
    {
    }
    OneEntryEach(s.tunnel.realms, s.handlers.Keys);
  }

  // Progress

  /** A connection is accepted exactly while both limits leave a slot. */
  lemma AcceptedIff(maxConns: nat, maxRealms: nat, s: State, h: Hid)
    requires Reachable(maxConns, maxRealms, s) && h !in s.handlers
    ensures Enabled(s, Accept(h)) <==> |s.handlers| < maxConns && |s.handlers| < maxRealms
  {
    ReachableInv(maxConns, maxRealms, s);
  }

  function StepsToLeave(phase: Phase): nat {
    match phase
    case Reading | Waiting => 2
    case Dialing => 3
    case Failed => 2
    case Negotiating | Streaming => 4
    case Closing => 3
    case Finishing => 2
    case Leaving => 1
  }

  /** The way out from each phase. */
  function WayOut(phase: Phase): Action {
    match phase
    case Reading | Waiting => GiveUp
    case Dialing => DialFails
    case Negotiating | Streaming => CloseDevice
    case Closing => DeviceClosed
    case Failed | Finishing => Finish
    case Leaving => Leave
  }

  lemma OutStep(s: State, h: Hid)
    requires TokenOk(s.handlers, s.token) && h in s.handlers
    ensures CanAct(s, h, WayOut(s.handlers[h].phase))
    ensures var s' := ActOn(s, h, WayOut(s.handlers[h].phase));
            if s.handlers[h].phase == Leaving then h !in s'.handlers
            else h in s'.handlers && StepsToLeave(s'.handlers[h].phase) + 1 == StepsToLeave(s.handlers[h].phase)
  {
    assert PhaseOk(s.handlers[h]);
  }

  lemma {:induction false} OutRun(s: State, h: Hid) returns (es: seq<Event>)
    requires Inv(s) && h in s.handlers
    ensures Run(s, es) && h !in After(s, es).handlers && |es| == StepsToLeave(s.handlers[h].phase)
    ensures forall e :: e in es ==> e.Act? && e.h == h
    decreases StepsToLeave(s.handlers[h].phase)
  {
    hide TokenOk, RealmsOk, ActOn, CanAct;
    OutStep(s, h);
    var e := Act(h, WayOut(s.handlers[h].phase));
    ActKeeps(s, h, e.a);
    var rest := [];
    if s.handlers[h].phase != Leaving {
      rest := OutRun(Apply(s, e), h);
    }
    es := [e] + rest;
    assert es[1..] == rest;
  }

  /** Wherever a handler is, at most four steps of its own give back its token, realm and slot: nobody can keep it. */
  lemma EveryHandlerCanLeave(maxConns: nat, maxRealms: nat, s: State, h: Hid) returns (es: seq<Event>)
    requires Reachable(maxConns, maxRealms, s) && h in s.handlers
    ensures Run(s, es) && h !in After(s, es).handlers && |es| <= 4
    ensures forall e :: e in es ==> e.Act? && e.h == h
  {
    ReachableInv(maxConns, maxRealms, s);
    es := OutRun(s, h);
  }
}

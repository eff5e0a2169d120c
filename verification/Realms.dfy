/**
 * Opening and closing realms: any number of Dial, Tunnel.Close and Conn.Close calls
 * interleaved with the one reader goroutine. One step is one critical section or one
 * channel operation. Conns are told apart by identity; realm IDs are what the wire and
 * the realm map use, and are only drawn to differ from the IDs currently in the map.
 */
module Realms {
  import opened Options

  type Tid = nat
  type Realm = nat
  type ConnId = nat

  const MAX_RETRIES := 3

  datatype DialPc =
    | Entry                                       // first look at closed and retired
    | WaitMu                                      // queued on dialMu
    | Check                                       // second look
    | Try(k: nat)                                 // about to draw a realm ID
    | Installed(k: nat, c: ConnId)                // in the realm map
    | Waiting(k: nat, c: ConnId)                  // CONN waiter installed, BIND to be sent
    | Bound(k: nat, c: ConnId)                    // BIND sent, in the select
    | CleanRealm(k: nat, c: ConnId, retry: bool)
    | CleanWaiter(k: nat, c: ConnId, retry: bool)
    | Unlocking(res: Option<ConnId>)

  datatype ClosePc = CloseEntry | Swap | Signalling

  /** Conn.Close: set closed, signalClosed, then after the DISC retries delete the realm. */
  datatype ConnClosePc = MarkClosed | SignalConn(already: bool) | DeleteRealm

  datatype Pc =
    | Dial(dial: DialPc)
    | Close(close: ClosePc)
    | ConnClose(c: ConnId, cc: ConnClosePc)
    | Finished(res: Option<ConnId>)

  datatype ReaderPc =
    | Idle
    | Have(r: Realm, c: ConnId)      // looked up the Conn of a payload
    | Tear(r: Realm, c: ConnId)      // its queue was full
    | MustSignal(c: ConnId)          // removed it from the map

  /** realms is nil after Close; waiters is connCh, and tokens what each CONN channel holds. */
  datatype Table = Table(isNil: bool, realms: map<Realm, ConnId>, waiters: map<Realm, ConnId>, tokens: map<ConnId, nat>)

  /** Every Conn ever created with its realm ID, and what has happened to it. */
  datatype Conns = Conns(
    realmOf: map<ConnId, Realm>,
    closed: set<ConnId>,     // Conn.closed
    signalled: set<ConnId>,
    granted: set<ConnId>,    // a CONN for it was processed while its waiter was installed
    returned: set<ConnId>,   // handed out by Dial
    discarded: set<ConnId>)  // given up by Dial

  /** done is closed or retired; todo is what Close has taken out of the map and not yet signalled. */
  datatype Tunnel = Tunnel(done: bool, retired: bool, todo: set<ConnId>)

  datatype State = State(
    tab: Table, conns: Conns, tun: Tunnel, reader: ReaderPc,
    dialMu: Option<Tid>, pcs: map<Tid, Pc>)

  const START := State(
    Table(false, map[], map[], map[]), Conns(map[], {}, {}, {}, {}, {}), Tunnel(false, false, {}), Idle,
    None, map[])

  datatype Choice = Go | Draw(r: Realm, c: ConnId) | Fail | Timeout | Signal(c: ConnId)

  datatype Inbound = Conn(r: Realm) | Disc(r: Realm) | Payload(r: Realm) | Enqueue | Overflow | Advance

  datatype Event =
    | Retire
    | Spawn(t: Tid, pc: Pc)
    | Step(t: Tid, choice: Choice)
    | Read(msg: Inbound)

  // Dial

  predicate CanDial(s: State, dial: DialPc, choice: Choice) {
    match dial
    case WaitMu => choice == Go && s.dialMu.None?
    case Try(k) =>
      if k >= MAX_RETRIES || s.tab.isNil then choice == Go
      else choice.Draw? && choice.r !in s.tab.realms && choice.c !in s.conns.realmOf
    case Waiting(_, _) => choice == Go || choice == Fail
    case Bound(_, c) =>
      || (choice == Go && c in s.tab.tokens && s.tab.tokens[c] > 0)
      || (choice == Fail && s.tun.done)
      || choice == Timeout
    case _ => choice == Go
  }

  function At(s: State, t: Tid, dial: DialPc): State {
    s.(pcs := s.pcs[t := Dial(dial)])
  }

  function ApplyDial(s: State, t: Tid, dial: DialPc, choice: Choice): State
    requires CanDial(s, dial, choice)
  {
    match dial
    case Entry => s.(pcs := s.pcs[t := if s.tun.done || s.tun.retired then Finished(None) else Dial(WaitMu)])
    case WaitMu => s.(pcs := s.pcs[t := Dial(Check)], dialMu := Some(t))
    case Check => At(s, t, if s.tun.done || s.tun.retired then Unlocking(None) else Try(0))
    case Try(k) => if choice.Draw? then ApplyDraw(s, t, k, choice.r, choice.c) else At(s, t, Unlocking(None))
    case Installed(k, c) => ApplyWaiter(s, t, k, c)
    case Waiting(k, c) => At(s, t, if choice == Go then Bound(k, c) else CleanRealm(k, c, false))
    case Bound(k, c) => ApplySelect(s, t, k, c, choice)
    case CleanRealm(k, c, retry) => ApplyCleanRealm(s, t, k, c, retry)
    case CleanWaiter(k, c, retry) => ApplyCleanWaiter(s, t, k, c, retry)
    case Unlocking(res) => ApplyUnlock(s, t, res)
  }

  function ApplyDraw(s: State, t: Tid, k: nat, r: Realm, c: ConnId): State {
    s.(pcs := s.pcs[t := Dial(Installed(k, c))],
       tab := s.tab.(realms := s.tab.realms[r := c]),
       conns := s.conns.(realmOf := s.conns.realmOf[c := r]))
  }

  function ApplyWaiter(s: State, t: Tid, k: nat, c: ConnId): State {
    var r := RealmOf(s, c);
    s.(pcs := s.pcs[t := Dial(Waiting(k, c))],
       tab := s.tab.(waiters := s.tab.waiters[r := c], tokens := s.tab.tokens[c := 0]))
  }

  function ApplySelect(s: State, t: Tid, k: nat, c: ConnId, choice: Choice): State
    requires CanDial(s, Bound(k, c), choice)
  {
    if choice == Go then
      s.(pcs := s.pcs[t := Dial(Unlocking(Some(c)))],
         tab := s.tab.(tokens := s.tab.tokens[c := s.tab.tokens[c] - 1]))
    else
      At(s, t, CleanRealm(k, c, choice == Timeout))
  }

  function ApplyCleanRealm(s: State, t: Tid, k: nat, c: ConnId, retry: bool): State {
    s.(pcs := s.pcs[t := Dial(CleanWaiter(k, c, retry))],
       tab := s.tab.(realms := s.tab.realms - {RealmOf(s, c)}),
       conns := s.conns.(discarded := s.conns.discarded + {c}))
  }

  function ApplyCleanWaiter(s: State, t: Tid, k: nat, c: ConnId, retry: bool): State {
    s.(pcs := s.pcs[t := Dial(if retry then Try(k + 1) else Unlocking(None))],
       tab := s.tab.(waiters := s.tab.waiters - {RealmOf(s, c)}))
  }

  function ApplyUnlock(s: State, t: Tid, res: Option<ConnId>): State {
    s.(pcs := s.pcs[t := Finished(res)],
       dialMu := None,
       conns := if res.None? then s.conns else s.conns.(returned := s.conns.returned + {res.value}))
  }

  function RealmOf(s: State, c: ConnId): Realm {
    if c in s.conns.realmOf then s.conns.realmOf[c] else 0
  }

  // Tunnel.Close and Conn.Close

  predicate CanClose(s: State, close: ClosePc, choice: Choice) {
    match close
    case CloseEntry => choice == Go
    case Swap => choice == Go
    case Signalling => if s.tun.todo == {} then choice == Go else choice.Signal? && choice.c in s.tun.todo
  }

  function ApplyClose(s: State, t: Tid, close: ClosePc, choice: Choice): State
    requires CanClose(s, close, choice)
  {
    match close
    case CloseEntry =>
      if s.tun.done then s.(pcs := s.pcs[t := Finished(None)])
      else s.(pcs := s.pcs[t := Close(Swap)], tun := s.tun.(done := true))
    case Swap =>
      s.(pcs := s.pcs[t := Close(Signalling)],
         tab := s.tab.(isNil := true, realms := map[]),
         tun := s.tun.(todo := s.tun.todo + s.tab.realms.Values))
    case Signalling =>
      if choice == Go then s.(pcs := s.pcs[t := Finished(None)])
      else s.(tun := s.tun.(todo := s.tun.todo - {choice.c}), conns := Signalled(s.conns, choice.c))
  }

  function Signalled(cs: Conns, c: ConnId): Conns {
    cs.(closed := cs.closed + {c}, signalled := cs.signalled + {c})
  }

  function ApplyConnClose(s: State, t: Tid, c: ConnId, cc: ConnClosePc): State {
    match cc
    case MarkClosed =>
      s.(pcs := s.pcs[t := ConnClose(c, SignalConn(c in s.conns.closed))],
         conns := s.conns.(closed := s.conns.closed + {c}))
    case SignalConn(already) =>
      s.(pcs := s.pcs[t := if already then Finished(None) else ConnClose(c, DeleteRealm)],
         conns := Signalled(s.conns, c))
    case DeleteRealm =>
      s.(pcs := s.pcs[t := Finished(None)], tab := s.tab.(realms := s.tab.realms - {RealmOf(s, c)}))
  }

  // The reader

  predicate CanRead(s: State, msg: Inbound) {
    match msg
    case Conn(_) => s.reader.Idle?
    case Disc(_) => s.reader.Idle?
    case Payload(_) => s.reader.Idle?
    case Enqueue => s.reader.Have?
    case Overflow => s.reader.Have?
    case Advance => s.reader.Tear? || s.reader.MustSignal?
  }

  function ApplyRead(s: State, msg: Inbound): State
    requires CanRead(s, msg)
  {
    match msg
    case Conn(r) => if r in s.tab.waiters then ApplyGrant(s, r, s.tab.waiters[r]) else s
    case Disc(r) =>
      if r !in s.tab.realms then s
      else s.(tab := s.tab.(realms := s.tab.realms - {r}), reader := MustSignal(s.tab.realms[r]))
    case Payload(r) => if r in s.tab.realms then s.(reader := Have(r, s.tab.realms[r])) else s
    case Enqueue => s.(reader := Idle)
    case Overflow => s.(reader := Tear(s.reader.r, s.reader.c))
    case Advance =>
      if s.reader.Tear? then
        s.(tab := s.tab.(realms := s.tab.realms - {s.reader.r}), reader := MustSignal(s.reader.c))
      else
        s.(conns := Signalled(s.conns, s.reader.c), reader := Idle)
  }

  /** The CONN of a waiting Dial: put a token into its channel and forget the waiter. */
  function ApplyGrant(s: State, r: Realm, c: ConnId): State {
    s.(tab := s.tab.(waiters := s.tab.waiters - {r},
                     tokens := s.tab.tokens[c := Tokens(s, c) + 1]),
       conns := s.conns.(granted := s.conns.granted + {c}))
  }

  function Tokens(s: State, c: ConnId): nat {
    if c in s.tab.tokens then s.tab.tokens[c] else 0
  }

  // Runs

  predicate Enabled(s: State, e: Event) {
    match e
    case Retire => true
    case Spawn(t, pc) =>
      && t !in s.pcs
      && (pc == Dial(Entry) || pc == Close(CloseEntry)
          || (pc.ConnClose? && pc.cc == MarkClosed && pc.c in s.conns.returned))
    case Step(t, choice) =>
      && t in s.pcs
      && (match s.pcs[t]
          case Dial(dial) => CanDial(s, dial, choice)
          case Close(close) => CanClose(s, close, choice)
          case ConnClose(_, _) => choice == Go
          case Finished(_) => false)
    case Read(msg) => CanRead(s, msg)
  }

  function Apply(s: State, e: Event): State
    requires Enabled(s, e)
  {
    match e
    case Retire => s.(tun := s.tun.(retired := true))
    case Spawn(t, pc) => s.(pcs := s.pcs[t := pc])
    case Step(t, choice) => ApplyStep(s, t, choice)
    case Read(msg) => ApplyRead(s, msg)
  }

  function ApplyStep(s: State, t: Tid, choice: Choice): State
    requires Enabled(s, Step(t, choice))
  {
    match s.pcs[t]
    case Dial(dial) => ApplyDial(s, t, dial, choice)
    case Close(close) => ApplyClose(s, t, close, choice)
    case ConnClose(c, cc) => ApplyConnClose(s, t, c, cc)
    case Finished(_) => s
  }

  predicate Run(s: State, es: seq<Event>)
    decreases |es|
  {
    es == [] || (Enabled(s, es[0]) && Run(Apply(s, es[0]), es[1..]))
  }

  function After(s: State, es: seq<Event>): State
    requires Run(s, es)
    decreases |es|
  {
    if es == [] then s else After(Apply(s, es[0]), es[1..])
  }

  ghost predicate Reachable(s: State) {
    exists es :: Run(START, es) && After(START, es) == s
  }

  // The invariant of all runs

  predicate HoldsDial(pc: Pc) {
    pc.Dial? && !pc.dial.Entry? && !pc.dial.WaitMu?
  }

  /** The Conn the current Dial is working on. */
  function Attempt(pc: Pc): Option<ConnId> {
    if pc.Dial? then
      match pc.dial
      case Installed(_, c) => Some(c)
      case Waiting(_, c) => Some(c)
      case Bound(_, c) => Some(c)
      case CleanRealm(_, c, _) => Some(c)
      case CleanWaiter(_, c, _) => Some(c)
      case Unlocking(res) => res
      case _ => None
    else None
  }

  /** From installing the CONN waiter until cleaning it up or being granted. */
  predicate HasWaiter(pc: Pc) {
    pc.Dial? && (pc.dial.Waiting? || pc.dial.Bound? || pc.dial.CleanRealm? || pc.dial.CleanWaiter?)
  }

  function Current(s: State): Option<ConnId> {
    if s.dialMu.Some? && s.dialMu.value in s.pcs then Attempt(s.pcs[s.dialMu.value]) else None
  }

  ghost predicate AttemptOk(s: State, pc: Pc, c: ConnId)
    requires pc.Dial?
  {
    && c in s.conns.realmOf && c !in s.conns.returned
    && (s.conns.realmOf[c] in s.tab.realms ==> s.tab.realms[s.conns.realmOf[c]] == c)
    && (c in s.conns.discarded <==> pc.dial.CleanWaiter?)
    && (pc.dial.CleanWaiter? ==> s.conns.realmOf[c] !in s.tab.realms)
    && (HasWaiter(pc) ==> c in s.tab.tokens && s.tab.tokens[c] <= 1 && (s.tab.tokens[c] > 0 ==> c in s.conns.granted))
    && (pc.dial.Unlocking? ==> c in s.conns.granted && forall r :: r in s.tab.waiters ==> s.tab.waiters[r] != c)
    && (pc.dial.Installed? ==> forall r :: r in s.tab.waiters ==> s.tab.waiters[r] != c)
  }

  ghost predicate ThreadOk(s: State, t: Tid, pc: Pc) {
    && (HoldsDial(pc) <==> s.dialMu == Some(t))
    && (Attempt(pc).Some? ==> AttemptOk(s, pc, Attempt(pc).value))
    && (pc.ConnClose? ==> CloserOk(s, pc))
  }

  ghost predicate CloserOk(s: State, pc: Pc)
    requires pc.ConnClose?
  {
    pc.c in s.conns.returned && (pc.cc.DeleteRealm? ==> pc.c in s.conns.signalled)
  }

  ghost predicate TableOk(s: State) {
    && (s.tab.isNil ==> s.tab.realms == map[])
    && (forall r :: r in s.tab.realms ==>
          var c := s.tab.realms[r];
          && c in s.conns.realmOf && s.conns.realmOf[c] == r
          && (c in s.conns.returned || Current(s) == Some(c)))
    && (forall r :: r in s.tab.waiters ==>
          var c := s.tab.waiters[r];
          && Current(s) == Some(c) && c in s.conns.realmOf && s.conns.realmOf[c] == r
          && c in s.tab.tokens && s.tab.tokens[c] == 0)
  }

  ghost predicate ConnsOk(s: State) {
    && s.conns.returned + s.conns.discarded <= s.conns.realmOf.Keys
    && s.conns.returned !! s.conns.discarded
    && s.conns.returned <= s.conns.granted
    && (s.dialMu.Some? ==> s.dialMu.value in s.pcs)
  }

  ghost predicate SharedOk(s: State) {
    TableOk(s) && ConnsOk(s)
  }

  ghost predicate Inv(s: State) {
    SharedOk(s) && forall t :: t in s.pcs ==> ThreadOk(s, t, s.pcs[t])
  }

  lemma DrawKeeps(s: State, t: Tid, k: nat, r: Realm, c: ConnId)
    requires SharedOk(s) && t in s.pcs && s.pcs[t] == Dial(Try(k)) && ThreadOk(s, t, s.pcs[t])
    requires CanDial(s, Try(k), Draw(r, c))
    ensures var s' := ApplyDraw(s, t, k, r, c); SharedOk(s') && ThreadOk(s', t, s'.pcs[t])
  {
  }

  lemma WaiterKeeps(s: State, t: Tid, k: nat, c: ConnId)
    requires SharedOk(s) && t in s.pcs && s.pcs[t] == Dial(Installed(k, c)) && ThreadOk(s, t, s.pcs[t])
    ensures var s' := ApplyWaiter(s, t, k, c); SharedOk(s') && ThreadOk(s', t, s'.pcs[t])
  {
  }

  lemma SelectKeeps(s: State, t: Tid, k: nat, c: ConnId, choice: Choice)
    requires SharedOk(s) && t in s.pcs && s.pcs[t] == Dial(Bound(k, c)) && ThreadOk(s, t, s.pcs[t])
    requires CanDial(s, Bound(k, c), choice)
    ensures var s' := ApplySelect(s, t, k, c, choice); SharedOk(s') && ThreadOk(s', t, s'.pcs[t])
  {
  }

  lemma CleanRealmKeeps(s: State, t: Tid, k: nat, c: ConnId, retry: bool)
    requires SharedOk(s) && t in s.pcs && s.pcs[t] == Dial(CleanRealm(k, c, retry)) && ThreadOk(s, t, s.pcs[t])
    ensures var s' := ApplyCleanRealm(s, t, k, c, retry); SharedOk(s') && ThreadOk(s', t, s'.pcs[t])
  {
  }

  lemma CleanWaiterKeeps(s: State, t: Tid, k: nat, c: ConnId, retry: bool)
    requires SharedOk(s) && t in s.pcs && s.pcs[t] == Dial(CleanWaiter(k, c, retry)) && ThreadOk(s, t, s.pcs[t])
    ensures var s' := ApplyCleanWaiter(s, t, k, c, retry); SharedOk(s') && ThreadOk(s', t, s'.pcs[t])
  {
  }

  lemma UnlockKeeps(s: State, t: Tid, res: Option<ConnId>)
    requires SharedOk(s) && t in s.pcs && s.pcs[t] == Dial(Unlocking(res)) && ThreadOk(s, t, s.pcs[t])
    ensures var s' := ApplyUnlock(s, t, res); SharedOk(s') && ThreadOk(s', t, s'.pcs[t])
  {
  }

  lemma DialKeeps(s: State, t: Tid, dial: DialPc, choice: Choice)
    requires SharedOk(s) && t in s.pcs && s.pcs[t] == Dial(dial) && ThreadOk(s, t, s.pcs[t])
    requires CanDial(s, dial, choice)
    ensures var s' := ApplyDial(s, t, dial, choice); SharedOk(s') && ThreadOk(s', t, s'.pcs[t])
  {
    match dial
    case Try(k) =>
      if choice.Draw? {
        DrawKeeps(s, t, k, choice.r, choice.c);
      }
    case Installed(k, c) => WaiterKeeps(s, t, k, c);
    case Bound(k, c) => SelectKeeps(s, t, k, c, choice);
    case CleanRealm(k, c, retry) => CleanRealmKeeps(s, t, k, c, retry);
    case CleanWaiter(k, c, retry) => CleanWaiterKeeps(s, t, k, c, retry);
    case Unlocking(res) => UnlockKeeps(s, t, res);
    case _ =>
  }

  lemma DialKeepsOther(s: State, t: Tid, dial: DialPc, choice: Choice, u: Tid)
    requires SharedOk(s) && t in s.pcs && s.pcs[t] == Dial(dial) && ThreadOk(s, t, s.pcs[t])
    requires CanDial(s, dial, choice)
    requires u != t && u in s.pcs && ThreadOk(s, u, s.pcs[u])
    ensures ThreadOk(ApplyDial(s, t, dial, choice), u, s.pcs[u])
  {
  }

  /** Removing realms from the map, signalling Conns and moving on disturbs no Dial. */
  lemma RemovalKeeps(s: State, s': State, rs: set<Realm>)
    requires Inv(s)
    requires s'.tab == s.tab.(realms := s.tab.realms - rs, isNil := s'.tab.isNil)
    requires s'.tab.isNil ==> s'.tab.realms == map[]
    requires s'.conns == s.conns.(closed := s'.conns.closed, signalled := s'.conns.signalled)
    requires s.conns.signalled <= s'.conns.signalled
    requires s'.dialMu == s.dialMu && s.pcs.Keys == s'.pcs.Keys
    requires forall t :: t in s.pcs ==>
               (s'.pcs[t] == s.pcs[t]
                || (!s.pcs[t].Dial? && !s'.pcs[t].Dial? && (s'.pcs[t].ConnClose? ==> CloserOk(s', s'.pcs[t]))))
    ensures Inv(s')
  {
    assert s.dialMu.Some? ==> ThreadOk(s, s.dialMu.value, s.pcs[s.dialMu.value]);
    assert Current(s') == Current(s);
    forall t | t in s'.pcs
      ensures ThreadOk(s', t, s'.pcs[t])
    {
      assert ThreadOk(s, t, s.pcs[t]);
    }
  }

  lemma CloseKeeps(s: State, t: Tid, close: ClosePc, choice: Choice)
    requires Inv(s) && t in s.pcs && s.pcs[t] == Close(close) && CanClose(s, close, choice)
    ensures Inv(ApplyClose(s, t, close, choice))
  {
    RemovalKeeps(s, ApplyClose(s, t, close, choice), if close == Swap then s.tab.realms.Keys else {});
  }

  lemma ConnCloseKeeps(s: State, t: Tid, c: ConnId, cc: ConnClosePc)
    requires Inv(s) && t in s.pcs && s.pcs[t] == ConnClose(c, cc)
    ensures Inv(ApplyConnClose(s, t, c, cc))
  {
    assert ThreadOk(s, t, s.pcs[t]);
    RemovalKeeps(s, ApplyConnClose(s, t, c, cc), if cc == DeleteRealm then {RealmOf(s, c)} else {});
  }

  lemma GrantKeeps(s: State, r: Realm)
    requires Inv(s) && r in s.tab.waiters
    ensures Inv(ApplyGrant(s, r, s.tab.waiters[r]))
  {
  }

  lemma ReadKeeps(s: State, msg: Inbound)
    requires Inv(s) && CanRead(s, msg)
    ensures Inv(ApplyRead(s, msg))
  {
    match msg
    case Conn(r) =>
      if r in s.tab.waiters {
        GrantKeeps(s, r);
      }
    case Disc(r) => RemovalKeeps(s, ApplyRead(s, msg), {r});
    case Advance => RemovalKeeps(s, ApplyRead(s, msg), if s.reader.Tear? then {s.reader.r} else {});
    case _ => RemovalKeeps(s, ApplyRead(s, msg), {});
  }

  lemma StepKeeps(s: State, t: Tid, choice: Choice)
    requires Inv(s) && Enabled(s, Step(t, choice))
    ensures Inv(ApplyStep(s, t, choice))
  {
    match s.pcs[t]
    case Dial(dial) =>
      assert ThreadOk(s, t, s.pcs[t]);
      var s' := ApplyDial(s, t, dial, choice);
      DialKeeps(s, t, dial, choice);
      DialMovesOne(s, t, dial, choice);
      forall u | u in s'.pcs && u != t
        ensures ThreadOk(s', u, s'.pcs[u])
      {
        DialKeepsOther(s, t, dial, choice, u);
      }
    case Close(close) => CloseKeeps(s, t, close, choice);
    case ConnClose(c, cc) => ConnCloseKeeps(s, t, c, cc);
  }

  lemma DialMovesOne(s: State, t: Tid, dial: DialPc, choice: Choice)
    requires CanDial(s, dial, choice) && t in s.pcs
    ensures var s' := ApplyDial(s, t, dial, choice);
            s'.pcs.Keys == s.pcs.Keys && forall u :: u in s.pcs && u != t ==> s'.pcs[u] == s.pcs[u]
  {
  }

  lemma EventKeeps(s: State, e: Event)
    requires Inv(s) && Enabled(s, e)
    ensures Inv(Apply(s, e))
  {
    match e
    case Step(t, choice) => StepKeeps(s, t, choice);
    case Read(msg) => ReadKeeps(s, msg);
    case Retire => RemovalKeeps(s, Apply(s, e), {});
    case Spawn(t, pc) =>
      var s' := Apply(s, e);
      assert Current(s') == Current(s);
      forall u | u in s'.pcs
        ensures ThreadOk(s', u, s'.pcs[u])
      {
        assert u in s.pcs ==> ThreadOk(s, u, s.pcs[u]);
      }
  }

  lemma {:induction false} RunKeeps(s: State, es: seq<Event>)
    requires Inv(s) && Run(s, es)
    ensures Inv(After(s, es))
    decreases |es|
  {
    if es != [] {
      EventKeeps(s, es[0]);
      RunKeeps(Apply(s, es[0]), es[1..]);
    }
  }

  lemma ReachableInv(s: State)
    requires Reachable(s)
    ensures Inv(s)
  {
    var es :| Run(START, es) && After(START, es) == s;
    RunKeeps(START, es);
  }

  // What every run guarantees

  /**
   * Between Dials there is no residue: no CONN waiter, and no realm of a failed attempt;
   * every realm in the map belongs to a Conn that some Dial returned.
   */
  lemma DialLeavesNoResidue(s: State)
    requires Reachable(s) && s.dialMu.None?
    ensures s.tab.waiters == map[]
    ensures forall r :: r in s.tab.realms ==> s.tab.realms[r] in s.conns.returned - s.conns.discarded
  {
    ReachableInv(s);
  }

  /** A returned Conn was granted by a CONN that arrived while its waiter was installed. */
  lemma SuccessWasGranted(s: State)
    requires Reachable(s)
    ensures s.conns.returned <= s.conns.granted
  {
    ReachableInv(s);
  }

  /** The channel of an installed waiter is empty, so the reader's send to it never blocks. */
  lemma GrantNeverBlocks(s: State, r: Realm)
    requires Reachable(s) && r in s.tab.waiters
    ensures Tokens(s, s.tab.waiters[r]) == 0
  {
    ReachableInv(s);
  }

  // No Conn outlives its tunnel

  /** Found by Close when it comes, signalled, about to be signalled, or never handed out. */
  ghost predicate Accounted(s: State, c: ConnId)
    requires c in s.conns.realmOf
  {
    || (s.conns.realmOf[c] in s.tab.realms && s.tab.realms[s.conns.realmOf[c]] == c)
    || c in s.conns.signalled
    || c in s.tun.todo
    || s.reader == MustSignal(c)
    || c in s.conns.discarded
  }

  ghost predicate AllAccounted(s: State) {
    forall c :: c in s.conns.realmOf ==> Accounted(s, c)
  }

  /** The Conns in the map are in no other place. */
  ghost predicate PlacesOk(s: State) {
    && (s.reader.Have? || s.reader.Tear? ==>
          s.reader.c in s.conns.realmOf && s.conns.realmOf[s.reader.c] == s.reader.r)
    && (s.reader.MustSignal? ==> s.reader.c in s.conns.realmOf)
    && s.tun.todo <= s.conns.realmOf.Keys
    && (s.tun.todo != {} ==> s.tab.isNil)
    && (forall r :: r in s.tab.realms ==>
          s.reader != MustSignal(s.tab.realms[r]) && s.tab.realms[r] !in s.conns.discarded)
  }

  /** The Conn on whose behalf an event deletes a map entry by realm ID. */
  function Deleter(s: State, e: Event): Option<ConnId> {
    match e
    case Step(t, _) =>
      if t in s.pcs && s.pcs[t].ConnClose? && s.pcs[t].cc.DeleteRealm? then Some(s.pcs[t].c) else None
    case Read(msg) => if msg.Advance? && s.reader.Tear? then Some(s.reader.c) else None
    case _ => None
  }

  /** The event deletes, by realm ID, the entry of another Conn that nobody has signalled. */
  predicate Misdeletes(s: State, e: Event) {
    Deleter(s, e).Some? &&
    var c := Deleter(s, e).value;
    var r := RealmOf(s, c);
    r in s.tab.realms && s.tab.realms[r] != c && s.tab.realms[r] !in s.conns.signalled
  }

  lemma DialKeepsPlaces(s: State, t: Tid, dial: DialPc, choice: Choice)
    requires Inv(s) && PlacesOk(s) && t in s.pcs && s.pcs[t] == Dial(dial) && CanDial(s, dial, choice)
    ensures PlacesOk(ApplyDial(s, t, dial, choice))
  {
  }

  lemma CloseKeepsPlaces(s: State, t: Tid, close: ClosePc, choice: Choice)
    requires Inv(s) && PlacesOk(s) && CanClose(s, close, choice)
    ensures PlacesOk(ApplyClose(s, t, close, choice))
  {
  }

  lemma ReadKeepsPlaces(s: State, msg: Inbound)
    requires Inv(s) && PlacesOk(s) && CanRead(s, msg)
    ensures PlacesOk(ApplyRead(s, msg))
  {
  }

  lemma PlacesKept(s: State, e: Event)
    requires Inv(s) && PlacesOk(s) && Enabled(s, e)
    ensures PlacesOk(Apply(s, e))
  {
    match e
    case Step(t, choice) =>
      match s.pcs[t] {
        case Dial(dial) => DialKeepsPlaces(s, t, dial, choice);
        case Close(close) => CloseKeepsPlaces(s, t, close, choice);
        case ConnClose(_, _) =>
      }
    case Read(msg) => ReadKeepsPlaces(s, msg);
    case _ =>
  }

  lemma DialKeepsAccounts(s: State, t: Tid, dial: DialPc, choice: Choice)
    requires Inv(s) && PlacesOk(s) && AllAccounted(s)
    requires t in s.pcs && s.pcs[t] == Dial(dial) && CanDial(s, dial, choice)
    ensures AllAccounted(ApplyDial(s, t, dial, choice))
  {
  }

  lemma CloseKeepsAccounts(s: State, t: Tid, close: ClosePc, choice: Choice)
    requires Inv(s) && PlacesOk(s) && AllAccounted(s) && CanClose(s, close, choice)
    ensures AllAccounted(ApplyClose(s, t, close, choice))
  {
  }

  lemma ConnCloseAccounts(s: State, t: Tid, c: ConnId, cc: ConnClosePc)
    requires Inv(s) && PlacesOk(s) && AllAccounted(s) && t in s.pcs && s.pcs[t] == ConnClose(c, cc)
    ensures AllAccounted(ApplyConnClose(s, t, c, cc)) <==> !Misdeletes(s, Step(t, Go))
  {
  }

  lemma ReadAccounts(s: State, msg: Inbound)
    requires Inv(s) && PlacesOk(s) && AllAccounted(s) && CanRead(s, msg)
    ensures AllAccounted(ApplyRead(s, msg)) <==> !Misdeletes(s, Read(msg))
  {
  }

  /**
   * Exactly when a Conn gets lost: an event leaves a Conn that Close will not find and
   * nobody is going to signal if and only if it deletes another Conn's entry by realm ID.
   */
  lemma LostIffMisdeleted(s: State, e: Event)
    requires Inv(s) && PlacesOk(s) && AllAccounted(s) && Enabled(s, e)
    ensures AllAccounted(Apply(s, e)) <==> !Misdeletes(s, e)
  {
    match e
    case Step(t, choice) =>
      match s.pcs[t] {
        case Dial(dial) => DialKeepsAccounts(s, t, dial, choice);
        case Close(close) => CloseKeepsAccounts(s, t, close, choice);
        case ConnClose(c, cc) => ConnCloseAccounts(s, t, c, cc);
      }
    case Read(msg) => ReadAccounts(s, msg);
    case _ =>
      forall d | d in s.conns.realmOf
        ensures Accounted(Apply(s, e), d)
      {
        assert Accounted(s, d);
      }
  }

  /** No event of the run deletes another Conn's entry. */
  predicate NeverMisdeletes(s: State, es: seq<Event>)
    requires Run(s, es)
    decreases |es|
  {
    es == [] || (!Misdeletes(s, es[0]) && NeverMisdeletes(Apply(s, es[0]), es[1..]))
  }

  /** In every state of the run every Conn is accounted for. */
  ghost predicate AlwaysAccounted(s: State, es: seq<Event>)
    requires Run(s, es)
    decreases |es|
  {
    AllAccounted(s) && (es == [] || AlwaysAccounted(Apply(s, es[0]), es[1..]))
  }

  lemma {:induction false} RunAccounts(s: State, es: seq<Event>)
    requires Inv(s) && PlacesOk(s) && AllAccounted(s) && Run(s, es)
    ensures AlwaysAccounted(s, es) <==> NeverMisdeletes(s, es)
    ensures NeverMisdeletes(s, es) ==> AllAccounted(After(s, es)) && PlacesOk(After(s, es)) && Inv(After(s, es))
    decreases |es|
  {
    if es != [] {
      EventKeeps(s, es[0]);
      PlacesKept(s, es[0]);
      LostIffMisdeleted(s, es[0]);
      if !Misdeletes(s, es[0]) {
        RunAccounts(Apply(s, es[0]), es[1..]);
      }
    }
  }

  /**
   * The exact condition, over whole runs: every Conn is accounted for in every state of a run
   * if and only if no event of the run deletes another Conn's entry by realm ID.
   */
  lemma AccountedIffNeverMisdeletes(es: seq<Event>)
    requires Run(START, es)
    ensures AlwaysAccounted(START, es) <==> NeverMisdeletes(START, es)
  {
    RunAccounts(START, es);
  }

  /**
   * In every such run, however Dial races with Close: once Close has emptied the map, every
   * Conn any Dial returned has been signalled, is on Close's list, or is about to be
   * signalled by the reader; so once those are done, all are.
   */
  lemma NoConnOutlivesTunnel(es: seq<Event>)
    requires Run(START, es) && NeverMisdeletes(START, es)
    requires After(START, es).tab.isNil
    ensures var s := After(START, es);
            && (forall c :: c in s.conns.returned ==>
                  c in s.conns.signalled || c in s.tun.todo || s.reader == MustSignal(c))
            && (s.tun.todo == {} && s.reader.Idle? ==> s.conns.returned <= s.conns.signalled)
  {
    RunAccounts(START, es);
    var s := After(START, es);
    forall c | c in s.conns.returned
      ensures c in s.conns.signalled || c in s.tun.todo || s.reader == MustSignal(c)
    {
      assert Accounted(s, c);
    }
  }

  /** No Dial draws a realm ID that an earlier one used. */
  predicate NeverRedraws(s: State, es: seq<Event>)
    requires Run(s, es)
    decreases |es|
  {
    es == [] ||
    (&& (es[0].Step? && es[0].choice.Draw? ==> es[0].choice.r !in s.conns.realmOf.Values)
     && NeverRedraws(Apply(s, es[0]), es[1..]))
  }

  ghost predicate DistinctRealms(s: State) {
    forall c, d :: c in s.conns.realmOf && d in s.conns.realmOf && s.conns.realmOf[c] == s.conns.realmOf[d] ==> c == d
  }

  lemma FreshEventKeeps(s: State, e: Event)
    requires Inv(s) && PlacesOk(s) && DistinctRealms(s) && Enabled(s, e)
    requires e.Step? && e.choice.Draw? ==> e.choice.r !in s.conns.realmOf.Values
    ensures !Misdeletes(s, e) && DistinctRealms(Apply(s, e))
  {
    if e.Step? {
      assert ThreadOk(s, e.t, s.pcs[e.t]);
    }
  }

  lemma {:induction false} FreshRun(s: State, es: seq<Event>)
    requires Inv(s) && PlacesOk(s) && DistinctRealms(s) && Run(s, es) && NeverRedraws(s, es)
    ensures NeverMisdeletes(s, es)
    decreases |es|
  {
    if es != [] {
      EventKeeps(s, es[0]);
      PlacesKept(s, es[0]);
      FreshEventKeeps(s, es[0]);
      FreshRun(Apply(s, es[0]), es[1..]);
    }
  }

  /** Runs that never redraw a realm ID are such runs. */
  lemma FreshRealmsNeverMisdelete(es: seq<Event>)
    requires Run(START, es) && NeverRedraws(START, es)
    ensures NeverMisdeletes(START, es)
  {
    FreshRun(START, es);
  }

  // Otherwise a Conn can be lost

  lemma {:induction false} RunConcat(s: State, es: seq<Event>, fs: seq<Event>)
    requires Run(s, es) && Run(After(s, es), fs)
    ensures Run(s, es + fs) && After(s, es + fs) == After(After(s, es), fs)
    decreases |es|
  {
    if es == [] {
      assert es + fs == fs;
    } else {
      assert (es + fs)[1..] == es[1..] + fs;
      RunConcat(Apply(s, es[0]), es[1..], fs);
    }
  }

  lemma Push(s: State, es: seq<Event>, e: Event) returns (fs: seq<Event>)
    requires Run(s, es) && Enabled(After(s, es), e)
    ensures fs == es + [e] && Run(s, fs) && After(s, fs) == Apply(After(s, es), e)
  {
    fs := es + [e];
    assert [e][1..] == [];
    RunConcat(s, es, [e]);
  }

  /** A Dial that nothing interferes with: take dialMu, install, be granted, return. */
  lemma QuietLock(s: State, t: Tid) returns (es: seq<Event>)
    requires !s.tun.done && !s.tun.retired && s.dialMu.None? && t !in s.pcs
    ensures Run(s, es) && After(s, es) == s.(pcs := s.pcs[t := Dial(Try(0))], dialMu := Some(t))
  {
    es := Push(s, [], Spawn(t, Dial(Entry)));
    es := Push(s, es, Step(t, Go));
    es := Push(s, es, Step(t, Go));
    es := Push(s, es, Step(t, Go));
    assert After(s, es).pcs == s.pcs[t := Dial(Try(0))];
  }

  lemma QuietInstall(s: State, t: Tid, r: Realm, c: ConnId) returns (es: seq<Event>)
    requires t in s.pcs && s.pcs[t] == Dial(Try(0)) && !s.tab.isNil
    requires r !in s.tab.realms && c !in s.conns.realmOf
    ensures Run(s, es)
    ensures After(s, es) ==
            s.(pcs := s.pcs[t := Dial(Bound(0, c))],
               tab := Table(false, s.tab.realms[r := c], s.tab.waiters[r := c], s.tab.tokens[c := 0]),
               conns := s.conns.(realmOf := s.conns.realmOf[c := r]))
  {
    es := Push(s, [], Step(t, Draw(r, c)));
    es := Push(s, es, Step(t, Go));
    es := Push(s, es, Step(t, Go));
    assert After(s, es).pcs == s.pcs[t := Dial(Bound(0, c))];
  }

  lemma QuietGrant(s: State, t: Tid, r: Realm, c: ConnId) returns (es: seq<Event>)
    requires t in s.pcs && s.pcs[t] == Dial(Bound(0, c)) && s.reader.Idle?
    requires r in s.tab.waiters && s.tab.waiters[r] == c && c in s.tab.tokens && s.tab.tokens[c] == 0
    ensures Run(s, es)
    ensures After(s, es) ==
            s.(pcs := s.pcs[t := Finished(Some(c))], dialMu := None,
               tab := s.tab.(waiters := s.tab.waiters - {r}),
               conns := s.conns.(granted := s.conns.granted + {c}, returned := s.conns.returned + {c}))
  {
    es := Push(s, [], Read(Conn(r)));
    es := Push(s, es, Step(t, Go));
    es := Push(s, es, Step(t, Go));
    assert After(s, es).pcs == s.pcs[t := Finished(Some(c))];
    assert After(s, es).tab.tokens == s.tab.tokens;
  }

  lemma QuietDial(s: State, t: Tid, r: Realm, c: ConnId) returns (es: seq<Event>)
    requires !s.tun.done && !s.tun.retired && s.dialMu.None? && s.reader.Idle?
    requires !s.tab.isNil && s.tab.waiters == map[] && r !in s.tab.realms
    requires t !in s.pcs && c !in s.conns.realmOf
    ensures Run(s, es)
    ensures After(s, es) ==
            s.(tab := Table(false, s.tab.realms[r := c], map[], s.tab.tokens[c := 0]),
               conns := s.conns.(realmOf := s.conns.realmOf[c := r], granted := s.conns.granted + {c},
                                 returned := s.conns.returned + {c}),
               pcs := s.pcs[t := Finished(Some(c))])
  {
    es := QuietLock(s, t);
    var fs := QuietInstall(After(s, es), t, r, c);
    RunConcat(s, es, fs);
    es := es + fs;
    var gs := QuietGrant(After(s, es), t, r, c);
    RunConcat(s, es, gs);
    es := es + gs;
    assert After(s, es).pcs == s.pcs[t := Finished(Some(c))];
    assert map[r := c] - {r} == map[];
  }

  /** While a Conn.Close waits out its DISC retries, the device's DISC frees the realm ID. */
  lemma SlowClose(s: State, t: Tid, r: Realm, c: ConnId) returns (es: seq<Event>)
    requires t !in s.pcs && c in s.conns.returned && c !in s.conns.closed && s.reader.Idle?
    requires r in s.tab.realms && s.tab.realms[r] == c
    ensures Run(s, es)
    ensures After(s, es) ==
            s.(tab := s.tab.(realms := s.tab.realms - {r}), conns := Signalled(s.conns, c),
               pcs := s.pcs[t := ConnClose(c, DeleteRealm)])
  {
    es := Push(s, [], Spawn(t, ConnClose(c, MarkClosed)));
    es := Push(s, es, Step(t, Go));
    es := Push(s, es, Step(t, Go));
    es := Push(s, es, Read(Disc(r)));
    es := Push(s, es, Read(Advance));
    assert After(s, es).pcs == s.pcs[t := ConnClose(c, DeleteRealm)];
    assert After(s, es).conns == Signalled(s.conns, c);
  }

  lemma DeleteThenClose(s: State, t: Tid, c: ConnId, u: Tid) returns (es: seq<Event>)
    requires t in s.pcs && s.pcs[t] == ConnClose(c, DeleteRealm) && c in s.conns.realmOf
    requires u !in s.pcs && !s.tun.done && s.tun.todo == {}
    requires s.tab.realms.Keys == {s.conns.realmOf[c]}
    ensures Run(s, es)
    ensures After(s, es) ==
            s.(tab := s.tab.(isNil := true, realms := map[]), tun := s.tun.(done := true),
               pcs := s.pcs[t := Finished(None)][u := Finished(None)])
  {
    es := Push(s, [], Step(t, Go));
    assert After(s, es).tab.realms == map[];
    es := Push(s, es, Spawn(u, Close(CloseEntry)));
    es := Push(s, es, Step(u, Go));
    es := Push(s, es, Step(u, Go));
    assert After(s, es).tun.todo == {};
    es := Push(s, es, Step(u, Go));
    assert After(s, es).pcs == s.pcs[t := Finished(None)][u := Finished(None)];
  }

  /**
   * The code only avoids realm IDs currently in the map. If one is redrawn while the
   * Conn.Close of its previous Conn is still to delete it, that deletion takes the new
   * Conn out of the map: this run closes the tunnel, every goroutine finishes, and Conn 2,
   * returned by the second Dial, is never signalled.
   */
  lemma RedrawnRealmIsLost() returns (es: seq<Event>)
    ensures Run(START, es)
    ensures var s := After(START, es);
            && s.tab.isNil && s.tun.todo == {} && s.reader.Idle?
            && (forall t :: t in s.pcs ==> s.pcs[t].Finished?)
            && 2 in s.conns.returned && 2 !in s.conns.signalled
  {
    es := QuietDial(START, 0, 7, 1);
    var fs := SlowClose(After(START, es), 1, 7, 1);
    RunConcat(START, es, fs);
    es := es + fs;
    assert After(START, es).tab.realms == map[];
    fs := QuietDial(After(START, es), 2, 7, 2);
    RunConcat(START, es, fs);
    es := es + fs;
    fs := DeleteThenClose(After(START, es), 1, 1, 3);
    RunConcat(START, es, fs);
    es := es + fs;
  }
}

/**
 * Demultiplexing: one reader goroutine dispatches the payloads of all realms to bounded
 * queues while consumers read, Conns are installed and closed, and realms are torn down,
 * all interleaved. Each Conn also remembers the payloads that arrived for its realm since
 * it was installed, how many of them were enqueued, and the bytes handed to its consumer.
 */
module Demux {
  import opened Bytes
  import opened ConnStream

  type Realm = U32
  type ConnId = nat

  datatype Stream = Stream(
    realm: Realm,
    buf: Buf,
    delivered: seq<Byte>,
    arrivals: seq<seq<Byte>>,
    taken: nat,
    torn: bool)  // signalled by the reader, after a DISC or an overflow

  datatype ReaderPc =
    | Idle
    | Have(r: Realm, c: ConnId, data: seq<Byte>)  // looked up the Conn of a payload
    | Full(r: Realm, c: ConnId)                   // its queue had no room
    | MustSignal(c: ConnId)                       // its realm has left the map

  datatype State = State(realms: map<Realm, ConnId>, conns: map<ConnId, Stream>, reader: ReaderPc)

  const START := State(map[], map[], Idle)

  datatype Event =
    | Install(r: Realm, c: ConnId)
    | PayloadIn(r: Realm, data: seq<Byte>)
    | DiscIn(r: Realm)
    | Dispatch                       // the reader's non-blocking send
    | Remove                         // of a realm whose queue was full
    | Signal
    | LocalClose(c: ConnId)          // Conn.Close or Tunnel.Close marks the Conn
    | Forget(r: Realm)               // Conn.Close, Tunnel.Close or a failed Dial deletes the realm
    | Read(c: ConnId, max: nat)

  predicate Enabled(s: State, e: Event) {
    match e
    case Install(r, c) => r !in s.realms && c !in s.conns
    case PayloadIn(_, _) => s.reader.Idle?
    case DiscIn(_) => s.reader.Idle?
    case Dispatch => s.reader.Have? && s.reader.c in s.conns
    case Remove => s.reader.Full?
    case Signal => s.reader.MustSignal? && s.reader.c in s.conns
    case LocalClose(c) => c in s.conns
    case Forget(_) => true
    case Read(c, _) => c in s.conns
  }

  function Arrive(st: Stream, r: Realm, data: seq<Byte>): Stream {
    if st.realm == r then st.(arrivals := st.arrivals + [data]) else st
  }

  function Enqueue(st: Stream, data: seq<Byte>): Stream {
    st.(buf := st.buf.(queue := st.buf.queue + [data]), taken := st.taken + 1)
  }

  function ReadFrom(st: Stream, max: nat): Stream {
    var (res, buf) := ReadPass(st.buf, max);
    st.(buf := buf, delivered := st.delivered + if res.Data? then res.bytes else [])
  }

  function Apply(s: State, e: Event): State
    requires Enabled(s, e)
  {
    match e
    case Install(r, c) =>
      State(s.realms[r := c], s.conns[c := Stream(r, Buf(false, [], []), [], [], 0, false)], s.reader)
    case PayloadIn(r, data) =>
      State(s.realms, map c | c in s.conns :: Arrive(s.conns[c], r, data),
            if r in s.realms then Have(r, s.realms[r], data) else Idle)
    case DiscIn(r) => if r in s.realms then State(s.realms - {r}, s.conns, MustSignal(s.realms[r])) else s
    case Dispatch => ApplyDispatch(s, s.reader.r, s.reader.c, s.reader.data)
    case Remove => State(s.realms - {s.reader.r}, s.conns, MustSignal(s.reader.c))
    case Signal =>
      var st := s.conns[s.reader.c];
      State(s.realms, s.conns[s.reader.c := st.(buf := st.buf.(closed := true), torn := true)], Idle)
    case LocalClose(c) =>
      var st := s.conns[c];
      State(s.realms, s.conns[c := st.(buf := st.buf.(closed := true))], s.reader)
    case Forget(r) => State(s.realms - {r}, s.conns, s.reader)
    case Read(c, max) => State(s.realms, s.conns[c := ReadFrom(s.conns[c], max)], s.reader)
  }

  function ApplyDispatch(s: State, r: Realm, c: ConnId, data: seq<Byte>): State
    requires c in s.conns
  {
    if |s.conns[c].buf.queue| < QUEUE_CAP
    then State(s.realms, s.conns[c := Enqueue(s.conns[c], data)], Idle)
    else State(s.realms, s.conns, Full(r, c))
  }

  predicate Run(s: State, es: seq<Event>)
    decreases |es|
  {
    es == [] || (Enabled(s, es[0]) && Run(Apply(s, es[0]), es[1..]))
  }

  function After(s: State, es: seq<Event>): State
    requires Run(s, es)
    decreases |es|
  {
    if es == [] then s else After(Apply(s, es[0]), es[1..])
  }

  ghost predicate Reachable(s: State) {
    exists es :: Run(START, es) && After(START, es) == s
  }

  // The invariant

  predicate InMap(s: State, c: ConnId)
    requires c in s.conns
  {
    s.conns[c].realm in s.realms && s.realms[s.conns[c].realm] == c
  }

  predicate ReaderHas(s: State, c: ConnId) {
    (s.reader.Have? || s.reader.Full?) && s.reader.c == c
  }

  /** What was handed out, what is buffered and what is queued is what was enqueued. */
  ghost predicate Whole(st: Stream) {
    st.taken <= |st.arrivals| && st.delivered + Content(st.buf) == Flatten(st.arrivals[..st.taken])
  }

  /** What the map and the reader know about a Conn agrees with what it has been given. */
  ghost predicate Placed(s: State, c: ConnId)
    requires c in s.conns
  {
    var st := s.conns[c];
    && |st.buf.queue| <= QUEUE_CAP
    && (InMap(s, c) && !ReaderHas(s, c) ==> st.taken == |st.arrivals|)
    && (ReaderHas(s, c) ==> st.realm == s.reader.r)
    && (ReaderHas(s, c) && s.reader.Have? ==>
          st.taken + 1 == |st.arrivals| && st.arrivals[st.taken] == s.reader.data)
    && (st.torn || s.reader == MustSignal(c) ==> !InMap(s, c) && !ReaderHas(s, c))
    && (st.torn ==> st.buf.closed)
  }

  ghost predicate MapOk(s: State) {
    && (forall r :: r in s.realms ==> s.realms[r] in s.conns && s.conns[s.realms[r]].realm == r)
    && (!s.reader.Idle? ==> s.reader.c in s.conns)
    && (forall c :: c in s.conns ==> Placed(s, c))
  }

  ghost predicate Inv(s: State) {
    MapOk(s) && forall c :: c in s.conns ==> Whole(s.conns[c])
  }

  lemma ArriveWhole(st: Stream, r: Realm, data: seq<Byte>)
    requires Whole(st)
    ensures Whole(Arrive(st, r, data))
  {
    assert (st.arrivals + [data])[..st.taken] == st.arrivals[..st.taken];
  }

  lemma EnqueueWhole(st: Stream, data: seq<Byte>)
    requires Whole(st) && st.taken < |st.arrivals| && st.arrivals[st.taken] == data
    ensures Whole(Enqueue(st, data))
  {
    assert st.arrivals[..st.taken + 1] == st.arrivals[..st.taken] + [data];
    FlattenSnoc(st.arrivals[..st.taken], data);
    FlattenSnoc(st.buf.queue, data);
  }

  lemma ReadWhole(st: Stream, max: nat)
    requires Whole(st)
    ensures Whole(ReadFrom(st, max))
  {
    ReadPassConserves(st.buf, max);
  }

  lemma ReadPlace(b: Buf, max: nat)
    ensures var b' := ReadPass(b, max).1; |b'.queue| <= |b.queue| && b'.closed == b.closed
  {
  }

  /** The streams of all Conns stay whole. */
  lemma EventKeepsWhole(s: State, e: Event, c: ConnId)
    requires MapOk(s) && Enabled(s, e) && c in Apply(s, e).conns
    requires c in s.conns ==> Whole(s.conns[c])
    ensures Whole(Apply(s, e).conns[c])
  {
    match e
    case PayloadIn(r, data) => ArriveWhole(s.conns[c], r, data);
    case Dispatch =>
      if c == s.reader.c {
        assert Placed(s, c);
        EnqueueWhole(s.conns[c], s.reader.data);
      }
    case Read(d, max) =>
      if c == d {
        ReadWhole(s.conns[c], max);
      }
    case _ =>
  }

  lemma PayloadKeepsMap(s: State, r: Realm, data: seq<Byte>)
    requires MapOk(s) && Enabled(s, PayloadIn(r, data))
    ensures MapOk(Apply(s, PayloadIn(r, data)))
  {
    var s' := Apply(s, PayloadIn(r, data));
    forall c | c in s'.conns
      ensures Placed(s', c)
    {
      assert Placed(s, c);
    }
  }

  lemma DispatchKeepsMap(s: State)
    requires MapOk(s) && Enabled(s, Dispatch)
    ensures MapOk(Apply(s, Dispatch))
  {
  }

  lemma ReadKeepsMap(s: State, c: ConnId, max: nat)
    requires MapOk(s) && c in s.conns
    ensures MapOk(Apply(s, Read(c, max)))
  {
    var s' := Apply(s, Read(c, max));
    ReadPlace(s.conns[c].buf, max);
    forall d | d in s'.conns
      ensures Placed(s', d)
    {
      assert Placed(s, d);
    }
  }

  lemma RemovalKeepsMap(s: State, e: Event)
    requires MapOk(s) && Enabled(s, e) && (e.DiscIn? || e.Remove? || e.Forget?)
    ensures MapOk(Apply(s, e))
  {
  }

  lemma CloseKeepsMap(s: State, e: Event)
    requires MapOk(s) && Enabled(s, e) && (e.Signal? || e.LocalClose? || e.Install?)
    ensures MapOk(Apply(s, e))
  {
    var s' := Apply(s, e);
    forall c | c in s'.conns
      ensures Placed(s', c)
    {
      assert c in s.conns ==> Placed(s, c);
    }
  }

  lemma EventKeepsMap(s: State, e: Event)
    requires MapOk(s) && Enabled(s, e)
    ensures MapOk(Apply(s, e))
  {
    match e
    case PayloadIn(r, data) => PayloadKeepsMap(s, r, data);
    case Dispatch => DispatchKeepsMap(s);
    case Read(c, max) => ReadKeepsMap(s, c, max);
    case DiscIn(_) => RemovalKeepsMap(s, e);
    case Remove => RemovalKeepsMap(s, e);
    case Forget(_) => RemovalKeepsMap(s, e);
    case Install(_, _) => CloseKeepsMap(s, e);
    case Signal => CloseKeepsMap(s, e);
    case LocalClose(_) => CloseKeepsMap(s, e);
  }

  lemma EventKeeps(s: State, e: Event)
    requires Inv(s) && Enabled(s, e)
    ensures Inv(Apply(s, e))
  {
    EventKeepsMap(s, e);
    forall c | c in Apply(s, e).conns
      ensures Whole(Apply(s, e).conns[c])
    {
      EventKeepsWhole(s, e, c);
    }
  }

  lemma {:induction false} RunKeeps(s: State, es: seq<Event>)
    requires Inv(s) && Run(s, es)
    ensures Inv(After(s, es))
    decreases |es|
  {
    if es != [] {
      EventKeeps(s, es[0]);
      RunKeeps(Apply(s, es[0]), es[1..]);
    }
  }

  lemma ReachableInv(s: State)
    requires Reachable(s)
    ensures Inv(s)
  {
    var es :| Run(START, es) && After(START, es) == s;
    RunKeeps(START, es);
  }

  // What every run guarantees

  /**
   * No holes: for every arrival sequence and every Conn, the bytes handed out, the read
   * buffer and the queue together are the concatenation of a prefix of the payloads that
   * arrived for its realm; and of all of them while the Conn is in the map and the reader
   * is between packets.
   */
  lemma NoHoles(s: State, c: ConnId)
    requires Reachable(s) && c in s.conns
    ensures var st := s.conns[c];
            && st.taken <= |st.arrivals|
            && st.delivered + st.buf.readBuf + Flatten(st.buf.queue) == Flatten(st.arrivals[..st.taken])
            && (InMap(s, c) && s.reader.Idle? ==> st.taken == |st.arrivals|)
  {
    ReachableInv(s);
    assert Placed(s, c) && Whole(s.conns[c]);
    var st := s.conns[c];
    assert st.delivered + st.buf.readBuf + Flatten(st.buf.queue) == st.delivered + Content(st.buf);
  }

  /** The events that can change what a Conn's consumer sees. */
  predicate Touches(s: State, e: Event, c: ConnId) {
    match e
    case Read(d, _) => d == c
    case LocalClose(d) => d == c
    case Dispatch => s.reader.Have? && s.reader.c == c
    case Signal => s.reader.MustSignal? && s.reader.c == c
    case _ => false
  }

  /** Isolation: whatever happens to one Conn, overflow included, leaves every other's queue alone. */
  lemma Isolation(s: State, e: Event, c: ConnId)
    requires Enabled(s, e) && c in s.conns && !Touches(s, e, c)
    ensures c in Apply(s, e).conns
    ensures Apply(s, e).conns[c].buf == s.conns[c].buf && Apply(s, e).conns[c].delivered == s.conns[c].delivered
    ensures Apply(s, e).conns[c].taken == s.conns[c].taken && Apply(s, e).conns[c].torn == s.conns[c].torn
  {
  }

  // Overflow and teardown

  /** A payload in the reader's hand is enqueued behind the others, or finds exactly 4096 of them and is not. */
  lemma DispatchIff(s: State)
    requires Reachable(s) && s.reader.Have?
    ensures Enabled(s, Dispatch)
    ensures var c, data, s' := s.reader.c, s.reader.data, Apply(s, Dispatch);
            if |s.conns[c].buf.queue| == 4096 then s' == s.(reader := Full(s.reader.r, c))
            else && |s.conns[c].buf.queue| < 4096 && s'.reader == Idle && s'.realms == s.realms
                 && s'.conns.Keys == s.conns.Keys
                 && s'.conns[c].buf == s.conns[c].buf.(queue := s.conns[c].buf.queue + [data])
  {
    ReachableInv(s);
    assert Placed(s, s.reader.c);
  }

  /** The reader is done with c, or about to be. */
  predicate Condemned(s: State, c: ConnId) {
    || (c in s.conns && s.conns[c].torn)
    || ((s.reader.Full? || s.reader.MustSignal?) && s.reader.c == c)
  }

  /** The two reasons: a DISC for its realm, and a payload that found 4096 in the queue. */
  predicate Condemns(s: State, e: Event, c: ConnId) {
    || (e.DiscIn? && e.r in s.realms && s.realms[e.r] == c)
    || (e.Dispatch? && s.reader.Have? && s.reader.c == c && c in s.conns && |s.conns[c].buf.queue| >= 4096)
  }

  ghost predicate SomeCondemns(s: State, es: seq<Event>, c: ConnId)
    requires Run(s, es)
    decreases |es|
  {
    es != [] && (Condemns(s, es[0], c) || SomeCondemns(Apply(s, es[0]), es[1..], c))
  }

  lemma CondemnedBy(s: State, e: Event, c: ConnId)
    requires Enabled(s, e) && Condemned(Apply(s, e), c)
    ensures Condemned(s, c) || Condemns(s, e, c)
  {
  }

  lemma {:induction false} CondemnedRun(s: State, es: seq<Event>, c: ConnId)
    requires Run(s, es) && Condemned(After(s, es), c)
    ensures Condemned(s, c) || SomeCondemns(s, es, c)
    decreases |es|
  {
    if es != [] {
      CondemnedRun(Apply(s, es[0]), es[1..], c);
      if Condemned(Apply(s, es[0]), c) {
        CondemnedBy(s, es[0], c);
      }
    }
  }

  /** Over whole runs: the reader tears a Conn down only after a DISC for its realm or with 4096 payloads queued. */
  lemma TornDownWithReason(es: seq<Event>, c: ConnId)
    requires Run(START, es) && c in After(START, es).conns && After(START, es).conns[c].torn
    ensures SomeCondemns(START, es, c)
  {
    CondemnedRun(START, es, c);
  }

  /** A read of c reports EOF. */
  predicate AtEof(s: State, c: ConnId)
    requires c in s.conns
  {
    ReadPass(s.conns[c].buf, 1).0.Eof?
  }

  /**
   * The reader may still enqueue for c: it holds a payload for c, or c is in the map and the
   * reader is not about to take its realm out because of a full queue.
   */
  predicate CanStillServe(s: State, c: ConnId)
    requires c in s.conns
  {
    || (InMap(s, c) && !(s.reader.Full? && s.reader.r == s.conns[c].realm))
    || (s.reader.Have? && s.reader.c == c)
  }

  lemma UnservedStays(s: State, e: Event, c: ConnId)
    requires MapOk(s) && Enabled(s, e) && c in s.conns && !CanStillServe(s, c)
    ensures c in Apply(s, e).conns && !CanStillServe(Apply(s, e), c)
    ensures AtEof(s, c) ==> AtEof(Apply(s, e), c)
    ensures SameEnqueued(s.conns[c], Apply(s, e).conns[c])
  {
  }

  /** The same payloads have been enqueued. */
  predicate SameEnqueued(st: Stream, st': Stream) {
    st'.taken == st.taken && st.arrivals <= st'.arrivals
  }

  /** Over every continuation, what was enqueued for a Conn that is served no more is all there will be. */
  lemma {:induction false} UnservedRun(s: State, es: seq<Event>, c: ConnId)
    requires Inv(s) && Run(s, es) && c in s.conns && !CanStillServe(s, c)
    ensures c in After(s, es).conns && SameEnqueued(s.conns[c], After(s, es).conns[c])
    ensures AtEof(s, c) ==> AtEof(After(s, es), c)
    decreases |es|
  {
    if es != [] {
      EventKeeps(s, es[0]);
      UnservedStays(s, es[0], c);
      UnservedRun(Apply(s, es[0]), es[1..], c);
    }
  }

  /** How many steps it takes to bring the reader to a payload for c. */
  function Detour(s: State, c: ConnId): nat
    requires MapOk(s)
  {
    match s.reader
    case Idle => 1
    case MustSignal(_) => 2
    case Full(_, _) => 3
    case Have(_, d, _) =>
      if d == c then 0
      else if |s.conns[d].buf.queue| < QUEUE_CAP then 4
      else if s.conns[d].buf.readBuf == [] then 5 else 6
  }

  /** The next of these steps: it serves another Conn's packet to its end, making room for it if need be. */
  function NextStep(s: State, c: ConnId): Event
    requires MapOk(s) && c in s.conns
  {
    match s.reader
    case Idle => PayloadIn(s.conns[c].realm, [0])
    case MustSignal(_) => Signal
    case Full(_, _) => Remove
    case Have(_, d, _) =>
      if d == c || |s.conns[d].buf.queue| < QUEUE_CAP then Dispatch else Read(d, |s.conns[d].buf.readBuf|)
  }

  lemma StepCloser(s: State, c: ConnId)
    requires MapOk(s) && c in s.conns && AtEof(s, c) && CanStillServe(s, c) && Detour(s, c) > 0
    ensures Enabled(s, NextStep(s, c)) && c in Apply(s, NextStep(s, c)).conns
    ensures AtEof(Apply(s, NextStep(s, c)), c) && CanStillServe(Apply(s, NextStep(s, c)), c)
  {
    assert Placed(s, c);
    assert !s.reader.Idle? ==> Placed(s, s.reader.c);
    Isolation(s, NextStep(s, c), c);
  }

  lemma DetourShrinks(s: State, c: ConnId)
    requires MapOk(s) && c in s.conns && CanStillServe(s, c) && Detour(s, c) > 0
    requires Enabled(s, NextStep(s, c)) && MapOk(Apply(s, NextStep(s, c)))
    ensures Detour(Apply(s, NextStep(s, c)), c) < Detour(s, c)
  {
  }

  lemma DispatchAfterEof(s: State, c: ConnId)
    requires MapOk(s) && c in s.conns && AtEof(s, c) && CanStillServe(s, c) && Detour(s, c) == 0
    ensures Run(s, [Dispatch]) && c in After(s, [Dispatch]).conns && !AtEof(After(s, [Dispatch]), c)
  {
    assert [Dispatch][1..] == [];
    assert After(s, [Dispatch]) == Apply(s, Dispatch);
  }

  /** A Conn that the reader may still serve gets data after its EOF. */
  lemma {:induction false} DataAfterEof(s: State, c: ConnId) returns (es: seq<Event>)
    requires Inv(s) && c in s.conns && AtEof(s, c) && CanStillServe(s, c)
    ensures Run(s, es) && c in After(s, es).conns && !AtEof(After(s, es), c)
    decreases Detour(s, c)
  {
    hide Apply, Enabled, AtEof, CanStillServe, NextStep, Detour, Placed, Whole;
    if Detour(s, c) == 0 {
      DispatchAfterEof(s, c);
      es := [Dispatch];
    } else {
      var e := NextStep(s, c);
      StepCloser(s, c);
      EventKeeps(s, e);
      DetourShrinks(s, c);
      var rest := DataAfterEof(Apply(s, e), c);
      es := [e] + rest;
      assert es[1..] == rest;
    }
  }

  /**
   * EOF comes only when everything enqueued has been handed out. It is final, over every
   * continuation, if and only if the reader can serve the Conn no more, and after a teardown
   * by the reader it cannot.
   */
  lemma EofFinality(s: State, c: ConnId)
    requires Reachable(s) && c in s.conns && AtEof(s, c)
    ensures s.conns[c].taken <= |s.conns[c].arrivals|
    ensures s.conns[c].delivered == Flatten(s.conns[c].arrivals[..s.conns[c].taken])
    ensures s.conns[c].torn ==> !CanStillServe(s, c)
    ensures !CanStillServe(s, c) <==> forall es :: Run(s, es) ==> c in After(s, es).conns && AtEof(After(s, es), c)
  {
    ReachableInv(s);
    assert Placed(s, c) && Whole(s.conns[c]);
    if CanStillServe(s, c) {
      var es := DataAfterEof(s, c);
    } else {
      forall es | Run(s, es)
        ensures c in After(s, es).conns && AtEof(After(s, es), c)
      {
        UnservedRun(s, es, c);
      }
    }
  }

  /** Such a state exists: a Conn closed locally, with its realm still in the map, reports EOF and then data. */
  lemma EofThenData(r: Realm) returns (es: seq<Event>, more: seq<Event>)
    ensures Run(START, es) && 1 in After(START, es).conns && AtEof(After(START, es), 1)
    ensures Run(After(START, es), more) && 1 in After(After(START, es), more).conns
    ensures !AtEof(After(After(START, es), more), 1)
  {
    var install, close := Install(r, 1), LocalClose(1);
    es := [install, close];
    assert es[1..] == [close] && es[1..][1..] == [];
    var s := Apply(Apply(START, install), close);
    assert After(Apply(START, install), es[1..]) == s;
    RunKeeps(START, es);
    more := DataAfterEof(s, 1);
  }
}

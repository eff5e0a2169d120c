/**
 * Which deadline a UDP write runs under when SetDeadline and SetWriteDeadline calls race with
 * it and with one another. A call stores the deadline in the Conn and later applies it to the
 * socket; an older call may come to apply its deadline last.
 */
module Deadlines {
  import opened Options
  import opened SendPath

  /** A call that has stored the Conn's present deadline and will still apply it. */
  predicate Carries(s: State, pc: Pc, c: ConnId)
    requires c in s.conns
  {
    pc.Set? && pc.c == c && pc.until == s.conns[c].deadline && (pc.set_ == Stored || pc.set_ == Updating(false))
  }

  ghost predicate Coming(s: State, c: ConnId)
    requires c in s.conns
  {
    exists u :: u in s.pcs && Carries(s, s.pcs[u], c)
  }

  /** The deadline in use for an open Conn is its present one, or a call that will apply it is under way. */
  ghost predicate Current(s: State, c: ConnId, used: Socket) {
    c in s.conns && !s.conns[c].closed ==> used == SocketFor(s.conns[c].deadline, c) || Coming(s, c)
  }

  /** So it is for the write in progress, and for one that has read the deadline and is about to set it. */
  ghost predicate UpToDate(s: State) {
    && (s.env.open && s.gate.active.Some? ==> Current(s, s.gate.active.value, s.gate.socket))
    && (forall t :: t in s.pcs ==> ReadCurrent(s, s.pcs[t]))
  }

  ghost predicate ReadCurrent(s: State, pc: Pc) {
    pc.Send? && pc.w.Some? && pc.send.Checking? && !pc.send.closed ==>
      Current(s, pc.w.value, SocketFor(pc.send.until, pc.w.value))
  }

  /** Goroutines work on Conns that exist. */
  ghost predicate Known(s: State) {
    && (forall t :: t in s.pcs ==> KnownPc(s, s.pcs[t]))
    && (s.gate.active.Some? ==> s.gate.active.value in s.conns)
  }

  predicate KnownPc(s: State, pc: Pc) {
    match pc
    case Send(w, _) => w.Some? ==> w.value in s.conns
    case Close(c, _) => c in s.conns
    case Set(c, _, _) => c in s.conns
    case Finished => true
  }

  /** A call applies, to a write in progress, a deadline that is not the Conn's present one, and none follows. */
  ghost predicate Overtaken(s: State, e: Event) {
    && e.Step? && e.t in s.pcs && s.pcs[e.t].Set? && s.pcs[e.t].set_ == Updating(false)
    && var c := s.pcs[e.t].c;
       && c in s.conns && !s.conns[c].closed && s.env.open && s.gate.active == Some(c)
       && s.pcs[e.t].until != s.conns[c].deadline
       && !exists u :: u in s.pcs && u != e.t && Carries(s, s.pcs[u], c)
  }

  lemma KnownStep(s: State, t: Tid, pick: Pick)
    requires Known(s) && Enabled(s, Step(t, pick))
    ensures Known(ApplyStep(s, t, s.pcs[t], pick))
  {
    assert KnownPc(s, s.pcs[t]);
    StepMovesOne(s, t, pick);
  }

  lemma KnownStays(s: State, e: Event)
    requires Known(s) && Enabled(s, e)
    ensures Known(Apply(s, e))
  {
    if e.Step? {
      KnownStep(s, e.t, e.pick);
    }
  }

  /** A call under way stays so while another goroutine moves and the Conn keeps its deadline. */
  lemma ComingStays(s: State, s': State, t: Tid, c: ConnId)
    requires c in s.conns && c in s'.conns && s'.conns[c].deadline == s.conns[c].deadline
    requires forall u :: u in s.pcs && u != t ==> u in s'.pcs && s'.pcs[u] == s.pcs[u]
    requires t in s.pcs ==> !s.pcs[t].Set?
    ensures Coming(s, c) ==> Coming(s', c)
  {
    if Coming(s, c) {
      var u :| u in s.pcs && Carries(s, s.pcs[u], c);
      assert u != t && Carries(s', s'.pcs[u], c);
    }
  }

  /** Steps that neither store nor apply a deadline on behalf of a call. */
  lemma SendStays(s: State, t: Tid, pick: Pick)
    requires Inv(s) && Known(s) && UpToDate(s) && Enabled(s, Step(t, pick)) && s.pcs[t].Send?
    ensures UpToDate(ApplyStep(s, t, s.pcs[t], pick))
  {
    var s' := ApplyStep(s, t, s.pcs[t], pick);
    SendKeepsConns(s, t, pick);
    StepMovesOne(s, t, pick);
    assert ReadCurrent(s, s.pcs[t]) && KnownPc(s, s.pcs[t]);
    forall c | c in s.conns
      ensures Coming(s, c) ==> Coming(s', c)
    {
      ComingStays(s, s', t, c);
    }
    forall u | u in s'.pcs
      ensures ReadCurrent(s', s'.pcs[u])
    {
      assert ReadCurrent(s, s.pcs[u]);
    }
  }

  lemma SendKeepsConns(s: State, t: Tid, pick: Pick)
    requires Enabled(s, Step(t, pick)) && s.pcs[t].Send?
    ensures ApplyStep(s, t, s.pcs[t], pick).conns == s.conns
  {
  }

  lemma CloseStays(s: State, t: Tid, c: ConnId, close: ClosePc)
    requires Inv(s) && UpToDate(s) && t in s.pcs && s.pcs[t] == Close(c, close) && c in s.conns
    ensures UpToDate(ApplyClose(s, t, c, close))
  {
    var s' := ApplyClose(s, t, c, close);
    assert ThreadOk(s, t, s.pcs[t]);
    forall d | d in s.conns
      ensures Coming(s, d) ==> Coming(s', d)
    {
      ComingStays(s, s', t, d);
    }
    forall u | u in s'.pcs
      ensures ReadCurrent(s', s'.pcs[u])
    {
      assert ReadCurrent(s, s.pcs[u]);
    }
  }

  lemma StoreStays(s: State, t: Tid, c: ConnId, until: Option<Time>)
    requires UpToDate(s) && t in s.pcs && s.pcs[t] == Set(c, until, Storing) && c in s.conns
    ensures UpToDate(ApplySet(s, t, c, until, Storing))
  {
    var s' := ApplySet(s, t, c, until, Storing);
    assert Carries(s', s'.pcs[t], c);
    forall d | d in s.conns && Coming(s, d)
      ensures Coming(s', d)
    {
      var u :| u in s.pcs && Carries(s, s.pcs[u], d);
      assert d != c ==> Carries(s', s'.pcs[u], d);
    }
    forall u | u in s'.pcs
      ensures ReadCurrent(s', s'.pcs[u])
    {
      assert ReadCurrent(s, s.pcs[u]);
    }
  }

  lemma LookStays(s: State, t: Tid, c: ConnId, until: Option<Time>)
    requires UpToDate(s) && t in s.pcs && s.pcs[t] == Set(c, until, Stored) && c in s.conns
    ensures UpToDate(ApplySet(s, t, c, until, Stored))
  {
    var s' := ApplySet(s, t, c, until, Stored);
    forall d | d in s.conns && Coming(s, d) && !s.conns[d].closed
      ensures Coming(s', d)
    {
      var u :| u in s.pcs && Carries(s, s.pcs[u], d);
      assert Carries(s', s'.pcs[u], d);
    }
    forall u | u in s'.pcs
      ensures ReadCurrent(s', s'.pcs[u])
    {
      assert ReadCurrent(s, s.pcs[u]);
    }
  }

  /** Applying a deadline: this is where a write may come to run under an older one. */
  lemma ApplyStays(s: State, t: Tid, c: ConnId, until: Option<Time>, closed: bool)
    requires Inv(s) && UpToDate(s) && t in s.pcs && s.pcs[t] == Set(c, until, Updating(closed)) && c in s.conns
    ensures UpToDate(ApplySet(s, t, c, until, Updating(closed))) <==> !Overtaken(s, Step(t, Ahead))
  {
    var s' := ApplySet(s, t, c, until, Updating(closed));
    forall d | d in s.conns
      ensures Coming(s', d) <==> exists u :: u in s.pcs && u != t && Carries(s, s.pcs[u], d)
    {
      if u :| u in s.pcs && u != t && Carries(s, s.pcs[u], d) {
        assert Carries(s', s'.pcs[u], d);
      }
      if u :| u in s'.pcs && Carries(s', s'.pcs[u], d) {
        assert u != t && Carries(s, s.pcs[u], d);
      }
    }
    assert ThreadOk(s, t, s.pcs[t]);
    forall u | u in s'.pcs
      ensures ReadCurrent(s', s'.pcs[u])
    {
      assert u != t ==> ThreadOk(s, u, s.pcs[u]);
    }
  }

  lemma OutsideStays(s: State, e: Event)
    requires Inv(s) && Known(s) && UpToDate(s) && Enabled(s, e) && !e.Step?
    ensures UpToDate(Apply(s, e))
  {
    var s' := Apply(s, e);
    forall c | c in s.conns && Coming(s, c)
      ensures Coming(s', c)
    {
      var u :| u in s.pcs && Carries(s, s.pcs[u], c);
      assert Carries(s', s'.pcs[u], c);
    }
    forall u | u in s'.pcs
      ensures ReadCurrent(s', s'.pcs[u])
    {
      if u in s.pcs {
        assert ReadCurrent(s, s.pcs[u]) && KnownPc(s, s.pcs[u]);
      }
    }
  }

  /** Exactly when the deadline in use stops being the present one. */
  lemma StaleIffOvertaken(s: State, e: Event)
    requires Inv(s) && Known(s) && UpToDate(s) && Enabled(s, e)
    ensures UpToDate(Apply(s, e)) <==> !Overtaken(s, e)
  {
    hide UpToDate, Inv, Known;
    match e
    case Step(t, pick) =>
      match s.pcs[t] {
        case Send(_, _) => SendStays(s, t, pick);
        case Close(c, close) => CloseStays(s, t, c, close);
        case Set(c, until, set_) =>
          match set_ {
            case Storing => StoreStays(s, t, c, until);
            case Stored => LookStays(s, t, c, until);
            case Updating(closed) => ApplyStays(s, t, c, until, closed);
          }
      }
    case _ => OutsideStays(s, e);
  }

  // Runs

  ghost predicate NeverOvertaken(s: State, es: seq<Event>)
    requires Run(s, es)
    decreases |es|
  {
    es == [] || (!Overtaken(s, es[0]) && NeverOvertaken(Apply(s, es[0]), es[1..]))
  }

  ghost predicate AlwaysUpToDate(s: State, es: seq<Event>)
    requires Run(s, es)
    decreases |es|
  {
    UpToDate(s) && (es == [] || AlwaysUpToDate(Apply(s, es[0]), es[1..]))
  }

  lemma {:induction false} RunUpToDate(s: State, es: seq<Event>)
    requires Inv(s) && Known(s) && UpToDate(s) && Run(s, es)
    ensures AlwaysUpToDate(s, es) <==> NeverOvertaken(s, es)
    ensures NeverOvertaken(s, es) ==> UpToDate(After(s, es)) && Known(After(s, es))
    decreases |es|
  {
    hide UpToDate, Inv, Known, Overtaken, Apply, Enabled;
    if es != [] {
      EventKeeps(s, es[0]);
      KnownStays(s, es[0]);
      StaleIffOvertaken(s, es[0]);
      if !Overtaken(s, es[0]) {
        RunUpToDate(Apply(s, es[0]), es[1..]);
      }
    }
  }

  /** In every state of a run the deadline in use is up to date, if and only if no call is overtaken in it. */
  lemma UpToDateIffNeverOvertaken(es: seq<Event>)
    requires Run(START, es)
    ensures AlwaysUpToDate(START, es) <==> NeverOvertaken(START, es)
  {
    RunUpToDate(START, es);
  }

  predicate UnderWay(pc: Pc, c: ConnId) {
    pc.Set? && pc.c == c && pc.set_ != Storing
  }

  /** Then a write in progress for an open Conn runs under the deadline set last, once that call is done. */
  lemma WriteUnderLatestDeadline(es: seq<Event>, c: ConnId)
    requires Run(START, es) && NeverOvertaken(START, es)
    requires var s := After(START, es);
             && s.env.open && s.gate.active == Some(c) && (c in s.conns ==> !s.conns[c].closed)
             && forall t :: t in s.pcs ==> !UnderWay(s.pcs[t], c)
    ensures var s := After(START, es); c in s.conns && s.gate.socket == SocketFor(s.conns[c].deadline, c)
  {
    RunUpToDate(START, es);
    var s := After(START, es);
    assert Current(s, c, s.gate.socket);
  }

  // One call at a time

  ghost predicate OneCall(s: State) {
    forall t, u, c :: t in s.pcs && u in s.pcs && UnderWay(s.pcs[t], c) && UnderWay(s.pcs[u], c) ==> t == u
  }

  /** No two calls for one Conn overlap, from storing the deadline to applying it. */
  ghost predicate CallsTakeTurns(s: State, es: seq<Event>)
    requires Run(s, es)
    decreases |es|
  {
    OneCall(s) && (es == [] || CallsTakeTurns(Apply(s, es[0]), es[1..]))
  }

  ghost predicate HoldsPresent(s: State, pc: Pc) {
    pc.Set? && pc.set_ != Storing ==> pc.c in s.conns && pc.until == s.conns[pc.c].deadline
  }

  lemma TurnsStep(s: State, e: Event)
    requires Enabled(s, e) && OneCall(s) && OneCall(Apply(s, e))
    requires forall t :: t in s.pcs ==> HoldsPresent(s, s.pcs[t])
    ensures !Overtaken(s, e)
    ensures forall t :: t in Apply(s, e).pcs ==> HoldsPresent(Apply(s, e), Apply(s, e).pcs[t])
  {
    var s' := Apply(s, e);
    if e.Step? {
      assert HoldsPresent(s, s.pcs[e.t]);
      StepMovesOne(s, e.t, e.pick);
    }
    forall t | t in s'.pcs
      ensures HoldsPresent(s', s'.pcs[t])
    {
      assert t in s.pcs ==> HoldsPresent(s, s.pcs[t]);
      if e.Step? && s.pcs[e.t].Set? && s.pcs[e.t].set_ == Storing && t != e.t && UnderWay(s'.pcs[t], s.pcs[e.t].c) {
        assert UnderWay(s'.pcs[e.t], s.pcs[e.t].c);
        assert false;
      }
    }
  }

  lemma {:induction false} TurnsRun(s: State, es: seq<Event>)
    requires Run(s, es) && CallsTakeTurns(s, es)
    requires forall t :: t in s.pcs ==> HoldsPresent(s, s.pcs[t])
    ensures NeverOvertaken(s, es)
    decreases |es|
  {
    if es != [] {
      TurnsStep(s, es[0]);
      TurnsRun(Apply(s, es[0]), es[1..]);
    }
  }

  /** Calls that do not overlap are never overtaken. */
  lemma TurnsAreNeverOvertaken(es: seq<Event>)
    requires Run(START, es) && CallsTakeTurns(START, es)
    ensures NeverOvertaken(START, es)
  {
    TurnsRun(START, es);
  }

  // Two calls that overlap

  lemma {:induction false} Then(s: State, es: seq<Event>, e: Event)
    requires Run(s, es) && Enabled(After(s, es), e)
    ensures Run(s, es + [e]) && After(s, es + [e]) == Apply(After(s, es), e)
    decreases |es|
  {
    if es == [] {
      assert es + [e] == [e] && [e][1..] == [];
    } else {
      assert (es + [e])[1..] == es[1..] + [e];
      Then(Apply(s, es[0]), es[1..], e);
    }
  }

  lemma Push(es: seq<Event>, e: Event) returns (fs: seq<Event>)
    requires Run(START, es) && Enabled(After(START, es), e)
    ensures Run(START, fs) && After(START, fs) == Apply(After(START, es), e)
  {
    Then(START, es, e);
    fs := es + [e];
  }

  /** A write of Conn 1 begins. */
  lemma BeginWrite() returns (es: seq<Event>)
    ensures Run(START, es)
    ensures After(START, es) == START.(conns := map[1 := Conn(false, false, None, 0)],
                                       pcs := map[0 := Send(Some(1), Queued)])
  {
    es := Push([], NewConn(1, None));
    es := Push(es, Spawn(0, Send(Some(1), Queued)));
  }

  /** It waits for the permit, gets it, and checks and sets the deadline. */
  lemma ArmWrite() returns (es: seq<Event>)
    ensures Run(START, es)
    ensures var s := After(START, es);
            && s.conns == map[1 := Conn(false, false, None, 0)] && s.pcs == map[0 := Send(Some(1), Armed)]
            && s.gate == Gate(None, Some(1), Clear) && s.env == START.env
  {
    es := BeginWrite();
    es := Push(es, Step(0, Ahead));
    es := Push(es, Step(0, Ahead));
    es := Push(es, Step(0, Ahead));
    es := Push(es, Step(0, Ahead));
    es := Push(es, Step(0, Ahead));
  }

  /** Two calls store their deadlines, one after the other. */
  lemma StoreBoth() returns (es: seq<Event>)
    ensures Run(START, es)
    ensures var s := After(START, es);
            && s.conns == map[1 := Conn(false, false, Some(20), 2)]
            && s.pcs == map[0 := Send(Some(1), Armed), 1 := Set(1, Some(10), Stored), 2 := Set(1, Some(20), Stored)]
            && s.gate == Gate(None, Some(1), Clear) && s.env == START.env
  {
    es := ArmWrite();
    es := Push(es, Spawn(1, Set(1, Some(10), Storing)));
    es := Push(es, Step(1, Ahead));
    es := Push(es, Spawn(2, Set(1, Some(20), Storing)));
    es := Push(es, Step(2, Ahead));
  }

  /**
   * A run in which the later call applies its deadline first: both calls are done, the Conn's
   * deadline is 20, and the write in progress runs under 10.
   */
  lemma OlderDeadlineWins() returns (es: seq<Event>)
    ensures Run(START, es)
    ensures var s := After(START, es);
            && s.conns == map[1 := Conn(false, false, Some(20), 2)] && s.gate.socket == At(10, 1)
            && s.pcs == map[0 := Send(Some(1), Armed), 1 := Finished, 2 := Finished]
            && s.gate.active == Some(1) && s.env.open
  {
    es := StoreBoth();
    es := Push(es, Step(2, Ahead));
    es := Push(es, Step(2, Ahead));
    es := Push(es, Step(1, Ahead));
    es := Push(es, Step(1, Ahead));
  }
}

/** What a Dial does with a closed or retired tunnel, how often it tries, and that it can succeed. */
module DialLaws {
  import opened Options
  import opened Realms

  /** At its two looks at the tunnel, a Dial goes on exactly if the tunnel is neither closed nor retired. */
  lemma LooksIff(s: State, t: Tid)
    requires t in s.pcs && (s.pcs[t] == Dial(Entry) || s.pcs[t] == Dial(Check))
    ensures Enabled(s, Step(t, Go))
    ensures var s' := Apply(s, Step(t, Go));
            && s' == s.(pcs := s.pcs[t := s'.pcs[t]])
            && (s.tun.done || s.tun.retired ==>
                  s'.pcs[t] == if s.pcs[t] == Dial(Entry) then Finished(None) else Dial(Unlocking(None)))
            && (!s.tun.done && !s.tun.retired ==>
                  s'.pcs[t] == Dial(if s.pcs[t] == Dial(Entry) then WaitMu else Try(0)))
  {
  }

  /** A Dial that has not passed its second look, or was refused there. */
  predicate Unadmitted(pc: Pc) {
    match pc
    case Dial(dial) => dial.Entry? || dial.WaitMu? || dial.Check? || dial == Unlocking(None)
    case Finished(res) => res == None
    case _ => false
  }

  lemma UnadmittedStays(s: State, e: Event, t: Tid)
    requires Enabled(s, e) && (s.tun.done || s.tun.retired) && t in s.pcs && Unadmitted(s.pcs[t])
    ensures var s' := Apply(s, e); (s'.tun.done || s'.tun.retired) && t in s'.pcs && Unadmitted(s'.pcs[t])
  {
  }

  /** Once the tunnel is closed or retired, no Dial that is not past its second look ever draws a realm or returns a Conn. */
  lemma {:induction false} RefusedForGood(s: State, es: seq<Event>, t: Tid)
    requires Run(s, es) && (s.tun.done || s.tun.retired) && t in s.pcs && Unadmitted(s.pcs[t])
    ensures t in After(s, es).pcs && Unadmitted(After(s, es).pcs[t])
    decreases |es|
  {
    if es != [] {
      UnadmittedStays(s, es[0], t);
      RefusedForGood(Apply(s, es[0]), es[1..], t);
    }
  }

  /** How many attempts a Dial has behind it. */
  predicate Counted(pc: Pc) {
    pc.Dial? ==>
      match pc.dial
      case Try(k) => k <= 3
      case Installed(k, _) => k < 3
      case Waiting(k, _) => k < 3
      case Bound(k, _) => k < 3
      case CleanRealm(k, _, _) => k < 3
      case CleanWaiter(k, _, _) => k < 3
      case _ => true
  }

  lemma CountedStays(s: State, e: Event)
    requires Enabled(s, e) && forall t :: t in s.pcs ==> Counted(s.pcs[t])
    ensures forall t :: t in Apply(s, e).pcs ==> Counted(Apply(s, e).pcs[t])
  {
    if e.Step? {
      assert Counted(s.pcs[e.t]);
    }
  }

  lemma {:induction false} CountedRun(s: State, es: seq<Event>)
    requires Run(s, es) && forall t :: t in s.pcs ==> Counted(s.pcs[t])
    ensures forall t :: t in After(s, es).pcs ==> Counted(After(s, es).pcs[t])
    decreases |es|
  {
    if es != [] {
      CountedStays(s, es[0]);
      CountedRun(Apply(s, es[0]), es[1..]);
    }
  }

  /**
   * While it waits for the CONN: a token ends the Dial with its Conn, a closed tunnel without
   * one, and a timeout leads, past the cleanup, to the next attempt.
   */
  lemma SelectsIff(s: State, t: Tid, k: nat, c: ConnId)
    requires t in s.pcs && s.pcs[t] == Dial(Bound(k, c))
    ensures Enabled(s, Step(t, Go)) <==> c in s.tab.tokens && s.tab.tokens[c] > 0
    ensures Enabled(s, Step(t, Go)) ==> Apply(s, Step(t, Go)).pcs == s.pcs[t := Dial(Unlocking(Some(c)))]
    ensures Enabled(s, Step(t, Fail)) <==> s.tun.done
    ensures Enabled(s, Step(t, Fail)) ==> Apply(s, Step(t, Fail)).pcs == s.pcs[t := Dial(CleanRealm(k, c, false))]
    ensures Enabled(s, Step(t, Timeout)) && Apply(s, Step(t, Timeout)).pcs == s.pcs[t := Dial(CleanRealm(k, c, true))]
  {
  }

  /** The cleanup takes the realm out of the map and then its waiter, and goes where it was sent from. */
  lemma CleansUp(s: State, t: Tid, k: nat, c: ConnId, retry: bool)
    requires c in s.conns.realmOf && t in s.pcs
    ensures s.pcs[t] == Dial(CleanRealm(k, c, retry)) ==>
              && Enabled(s, Step(t, Go)) && s.conns.realmOf[c] !in Apply(s, Step(t, Go)).tab.realms
              && Apply(s, Step(t, Go)).pcs == s.pcs[t := Dial(CleanWaiter(k, c, retry))]
    ensures s.pcs[t] == Dial(CleanWaiter(k, c, retry)) ==>
              && Enabled(s, Step(t, Go)) && s.conns.realmOf[c] !in Apply(s, Step(t, Go)).tab.waiters
              && Apply(s, Step(t, Go)).pcs == s.pcs[t := Dial(if retry then Try(k + 1) else Unlocking(None))]
  {
  }

  /**
   * In every reachable state: a Dial may draw a realm ID exactly for its first three attempts and
   * while the realm map is there, any ID not in the map, and else it gives up.
   */
  lemma ThreeAttempts(s: State, t: Tid, k: nat, r: Realm, c: ConnId)
    requires Reachable(s) && t in s.pcs && s.pcs[t] == Dial(Try(k)) && c !in s.conns.realmOf
    ensures k <= 3
    ensures Enabled(s, Step(t, Draw(r, c))) <==> k < 3 && r !in s.tab.realms && !s.tab.isNil
    ensures Enabled(s, Step(t, Go)) <==> k == 3 || s.tab.isNil
    ensures k == 3 || s.tab.isNil ==> Apply(s, Step(t, Go)).pcs == s.pcs[t := Dial(Unlocking(None))]
  {
    var es :| Run(START, es) && After(START, es) == s;
    CountedRun(START, es);
    assert Counted(s.pcs[t]);
  }

  /** Conn.Close: it marks and signals the Conn, and only the call that found it open deletes the realm. */
  lemma ClosesIff(s: State, t: Tid, c: ConnId, already: bool)
    requires t in s.pcs && s.pcs[t] == ConnClose(c, SignalConn(already))
    ensures Enabled(s, Step(t, Go))
    ensures var s' := Apply(s, Step(t, Go));
            && c in s'.conns.closed && c in s'.conns.signalled
            && s'.pcs == s.pcs[t := if already then Finished(None) else ConnClose(c, DeleteRealm)]
  {
  }

  lemma MarksIff(s: State, t: Tid, c: ConnId)
    requires t in s.pcs && s.pcs[t] == ConnClose(c, MarkClosed)
    ensures Enabled(s, Step(t, Go))
    ensures Apply(s, Step(t, Go)).pcs == s.pcs[t := ConnClose(c, SignalConn(c in s.conns.closed))]
    ensures Apply(s, Step(t, Go)).conns.closed == s.conns.closed + {c}
  {
  }

  /** A CONN wakes exactly the Dial that waits for its realm, and a DISC takes exactly its realm out. */
  lemma ReadsIff(s: State, r: Realm)
    requires Reachable(s) && s.reader.Idle?
    ensures var s' := Apply(s, Read(Inbound.Conn(r)));
            if r in s.tab.waiters
            then && s'.tab.waiters == s.tab.waiters - {r} && s'.tab.tokens == s.tab.tokens[s.tab.waiters[r] := 1]
                 && s'.tab.realms == s.tab.realms && s'.conns.granted == s.conns.granted + {s.tab.waiters[r]}
            else s' == s
    ensures var s' := Apply(s, Read(Disc(r)));
            if r in s.tab.realms
            then s'.tab.realms == s.tab.realms - {r} && s'.reader == MustSignal(s.tab.realms[r]) && s'.conns == s.conns
            else s' == s
  {
    if r in s.tab.waiters {
      GrantNeverBlocks(s, r);
    }
  }
}

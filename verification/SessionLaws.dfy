/**
 * What each critical section of the session manager answers and leaves behind, said in terms
 * of the state it finds: lists by position, and every session and timer for itself.
 */
module SessionLaws {
  import opened Options
  import opened SessionPool

  // Acquire

  /** Position i of a list holds a session that Acquire may hand out. */
  predicate Usable(p: Pool, l: seq<Sid>, dead: set<Sid>, retired: set<Sid>, i: int)
    requires 0 <= i < |l|
  {
    l[i] !in dead && l[i] !in retired && l[i] in p.table && p.table[l[i]].refCount < p.table[l[i]].maxRealms
  }

  ghost predicate NoneUsable(p: Pool, l: seq<Sid>, dead: set<Sid>, retired: set<Sid>) {
    forall i :: 0 <= i < |l| ==> !Usable(p, l, dead, retired, i)
  }

  ghost predicate FirstUsable(p: Pool, l: seq<Sid>, dead: set<Sid>, retired: set<Sid>, s: Sid) {
    exists i :: 0 <= i < |l| && l[i] == s && Usable(p, l, dead, retired, i)
                && forall j :: 0 <= j < i ==> !Usable(p, l, dead, retired, j)
  }

  ghost predicate AllDead(l: seq<Sid>, dead: set<Sid>) {
    forall i :: 0 <= i < |l| ==> l[i] in dead
  }

  /** Looking through the live sessions is looking through the list past the dead ones. */
  lemma {:induction false} FirstOfLive(p: Pool, l: seq<Sid>, dead: set<Sid>, retired: set<Sid>)
    ensures match FirstAvailable(Without(l, dead), p.table, retired) {
              case None => NoneUsable(p, l, dead, retired)
              case Some(s) => FirstUsable(p, l, dead, retired, s)
            }
  {
    if l != [] {
      var rest := l[1..];
      FirstOfLive(p, rest, dead, retired);
      var live := Without(l, dead);
      if l[0] in dead {
        assert live == Without(rest, dead);
      } else {
        assert live[0] == l[0] && live[1..] == Without(rest, dead);
      }
      if Usable(p, l, dead, retired, 0) {
        assert FirstUsable(p, l, dead, retired, l[0]);
      } else {
        Shift(p, l, dead, retired);
      }
    }
  }

  /** An unusable head changes nothing. */
  lemma Shift(p: Pool, l: seq<Sid>, dead: set<Sid>, retired: set<Sid>)
    requires l != [] && !Usable(p, l, dead, retired, 0)
    ensures NoneUsable(p, l[1..], dead, retired) ==> NoneUsable(p, l, dead, retired)
    ensures forall s :: FirstUsable(p, l[1..], dead, retired, s) ==> FirstUsable(p, l, dead, retired, s)
  {
    var rest := l[1..];
    assert forall i :: 0 < i < |l| ==> Usable(p, l, dead, retired, i) == Usable(p, rest, dead, retired, i - 1);
    forall s | FirstUsable(p, rest, dead, retired, s)
      ensures FirstUsable(p, l, dead, retired, s)
    {
      var i :| 0 <= i < |rest| && rest[i] == s && Usable(p, rest, dead, retired, i)
               && forall j :: 0 <= j < i ==> !Usable(p, rest, dead, retired, j);
      assert l[i + 1] == s && Usable(p, l, dead, retired, i + 1);
    }
  }

  lemma FirstIsUnique(p: Pool, l: seq<Sid>, dead: set<Sid>, retired: set<Sid>, s: Sid, s': Sid)
    requires FirstUsable(p, l, dead, retired, s)
    ensures !NoneUsable(p, l, dead, retired)
    ensures FirstUsable(p, l, dead, retired, s') ==> s == s'
  {
  }

  lemma {:induction false} EmptyIffAllDead(l: seq<Sid>, dead: set<Sid>)
    ensures Without(l, dead) == [] <==> AllDead(l, dead)
  {
    if l != [] {
      EmptyIffAllDead(l[1..], dead);
      assert forall i :: 0 < i < |l| ==> l[i] == l[1..][i - 1];
    }
  }

  /** When each answer of Acquire's first section comes. */
  lemma EnterOutcome(p: Pool, k: Key, dead: set<Sid>, retired: set<Sid>, s: Sid)
    ensures var out := Enter(p, k, dead, retired).1;
            var l := if k in p.lists then p.lists[k] else [];
            var none := NoneUsable(p, l, dead, retired);
            var blocked := k.p2pPort != 0 && !AllDead(l, dead);
            && (out == Refused <==> p.closed)
            && (out == Hit(s) <==> !p.closed && FirstUsable(p, l, dead, retired, s))
            && (out == PortFull <==> !p.closed && none && blocked)
            && (out == Wait <==> !p.closed && none && !blocked && k in p.inflight)
            && (out == Handshake <==> !p.closed && none && !blocked && k !in p.inflight)
  {
    hide NoneUsable, FirstUsable, AllDead, FirstAvailable, Without, StopEach, Stop;
    var l := if k in p.lists then p.lists[k] else [];
    FirstOfLive(p, l, dead, retired);
    EmptyIffAllDead(l, dead);
    var found := FirstAvailable(Without(l, dead), p.table, retired);
    if found.Some? {
      FirstIsUnique(p, l, dead, retired, found.value, s);
    } else if FirstUsable(p, l, dead, retired, s) {
      FirstIsUnique(p, l, dead, retired, s, s);
    }
  }

  // What is left behind

  /** Of the timers of p, exactly the armed ones of these sessions are stopped, and nothing else happened to any. */
  ghost predicate Halts(p: Pool, q: Pool, these: set<Sid>) {
    forall t :: t in p.timers ==> t in q.timers && q.timers[t] == Halted(p, these, t)
  }

  ghost function Halted(p: Pool, these: set<Sid>, t: TimerId): Timer
    requires t in p.timers
  {
    var timer := p.timers[t];
    if timer.state == Armed && HasTimer(p.table, these, t) then Timer(Stopped, timer.key, timer.sid) else timer
  }

  ghost predicate HasTimer(table: map<Sid, Managed>, these: set<Sid>, t: TimerId) {
    exists s :: s in these && s in table && table[s].timer == Some(t)
  }

  /** Only the list of k changed, to l, and no key has an empty list that had none before. */
  ghost predicate Relists(p: Pool, q: Pool, k: Key, l: seq<Sid>) {
    && (forall k' :: k' != k ==> (k' in q.lists <==> k' in p.lists) && (k' in p.lists ==> q.lists[k'] == p.lists[k']))
    && (k in q.lists <==> l != []) && (k in q.lists ==> q.lists[k] == l)
  }

  /** Only the record of s changed, to m. */
  ghost predicate Records(p: Pool, q: Pool, s: Sid, m: Managed) {
    && s in q.table && q.table[s] == m
    && (forall s' :: s' != s ==> (s' in q.table <==> s' in p.table) && (s' in p.table ==> q.table[s'] == p.table[s']))
  }

  /** Stopping one more timer. */
  lemma ThenStop(p: Pool, q: Pool, r: Pool, these: set<Sid>, s: Sid)
    requires Halts(p, q, these) && r.timers == Stop(q.timers, TimerOf(p.table, s))
    ensures Halts(p, r, these + {s})
  {
    forall t | t in p.timers
      ensures t in r.timers && r.timers[t] == Halted(p, these + {s}, t)
    {
      assert HasTimer(p.table, these + {s}, t) <==> HasTimer(p.table, these, t) || TimerOf(p.table, s) == Some(t);
    }
  }

  lemma SameTimers(p: Pool, q: Pool, r: Pool, these: set<Sid>)
    requires Halts(p, q, these) && r.timers == q.timers
    ensures Halts(p, r, these)
  {
  }

  lemma SameLists(p: Pool, q: Pool, r: Pool, k: Key, l: seq<Sid>)
    requires Relists(p, q, k, l) && r.lists == q.lists
    ensures Relists(p, r, k, l)
  {
  }

  lemma CompactLeaves(p: Pool, k: Key, dead: set<Sid>)
    ensures var l := if k in p.lists then p.lists[k] else [];
            var q := Compact(p, k, dead);
            && Relists(p, q, k, Without(l, dead)) && Halts(p, q, set s | s in l && s in dead)
            && q.timers.Keys == p.timers.Keys
            && q == p.(lists := q.lists, timers := q.timers)
  {
  }

  /**
   * Acquire's first section: dead sessions leave the list with their timers stopped, a hit gains
   * a holder and loses its idle timer, and a handshake is noted.
   */
  lemma EnterLeaves(p: Pool, k: Key, dead: set<Sid>, retired: set<Sid>)
    ensures var (q, out) := Enter(p, k, dead, retired);
            var l := if k in p.lists then p.lists[k] else [];
            if p.closed then q == p
            else
              && q.closed == p.closed && Relists(p, q, k, Without(l, dead))
              && q.inflight == (if out == Handshake then p.inflight + {k} else p.inflight)
              && q.timers.Keys == p.timers.Keys
              && Halts(p, q, (set s | s in l && s in dead) + if out.Hit? then {out.sid} else {})
              && if out.Hit? then out.sid in p.table && Records(p, q, out.sid,
                      Managed(p.table[out.sid].refCount + 1, None, p.table[out.sid].maxRealms))
                 else q.table == p.table
  {
    hide Halts, Relists, Compact, Without;
    CompactLeaves(p, k, dead);
    if !p.closed {
      var c := Compact(p, k, dead);
      var l := if k in p.lists then p.lists[k] else [];
      var gone := set s | s in l && s in dead;
      match FirstAvailable(List(c.lists, k), c.table, retired)
      case Some(s) => {
        ThenStop(p, c, Reserve(c, s), gone, s);
        SameLists(p, c, Reserve(c, s), k, Without(l, dead));
      }
      case None => {
        var q := Enter(p, k, dead, retired).0;
        assert gone + {} == gone;
        SameTimers(p, c, q, gone);
        SameLists(p, c, q, k, Without(l, dead));
      }
    }
  }

  /** Its second section lists the new client with one holder, unless there is none or the manager has closed. */
  lemma FinishLeaves(p: Pool, k: Key, client: Option<Sid>)
    ensures var (q, listed) := Finish(p, k, client);
            var l := if k in p.lists then p.lists[k] else [];
            && (listed <==> client.Some? && !p.closed)
            && q.closed == p.closed && q.inflight == p.inflight - {k} && q.timers == p.timers
            && if listed then Relists(p, q, k, l + [client.value]) && Records(p, q, client.value, Managed(1, None, k.maxRealms))
               else q.lists == p.lists && q.table == p.table
  {
  }

  /**
   * Release: one holder less; with the last one gone the old timer is stopped, and a retired
   * session is unlisted to be closed while another one gets an armed timer.
   */
  lemma ReleaseLeaves(p: Pool, k: Key, s: Sid, retired: bool, newTimer: TimerId)
    requires s in p.table && newTimer !in p.timers
    ensures var (q, close) := ReleaseAt(p, k, s, retired, newTimer);
            var l := if k in p.lists then p.lists[k] else [];
            var m := p.table[s];
            var last := m.refCount <= 1;
            && (close <==> last && retired)
            && q.closed == p.closed && q.inflight == p.inflight
            && (if close then Relists(p, q, k, Without(l, {s})) else q.lists == p.lists)
            && Records(p, q, s, Managed(if last then 0 else m.refCount - 1,
                                        if !last then m.timer else if retired then None else Some(newTimer),
                                        m.maxRealms))
            && Halts(p, q, if last then {s} else {})
            && (newTimer in q.timers <==> last && !retired)
            && (newTimer in q.timers ==> q.timers[newTimer] == Timer(Armed, k, s))
  {
  }

  /** The idle callback: it unlists, to be closed, exactly a listed session that nobody holds. */
  lemma IdleLeaves(p: Pool, t: TimerId)
    requires t in p.timers
    ensures var (q, close) := IdleRun(p, t);
            var timer := p.timers[t];
            var l := if timer.key in p.lists then p.lists[timer.key] else [];
            && (close <==> timer.sid in l && timer.sid in p.table && p.table[timer.sid].refCount <= 0)
            && q.closed == p.closed && q.inflight == p.inflight && q.table == p.table
            && q.timers == p.timers[t := Timer(Ran, timer.key, timer.sid)]
            && (if close then Relists(p, q, timer.key, Without(l, {timer.sid})) else q.lists == p.lists)
  {
  }

  /** Forget, when a tunnel has closed. */
  lemma ForgetLeaves(p: Pool, k: Key, s: Sid)
    ensures var q := Forget(p, k, s);
            && q.closed == p.closed && q.inflight == p.inflight && q.table == p.table && q.timers.Keys == p.timers.Keys
            && Relists(p, q, k, Without(if k in p.lists then p.lists[k] else [], {s})) && Halts(p, q, {s})
  {
  }

  /** CloseAll. */
  lemma CloseAllLeaves(p: Pool)
    ensures var q := CloseAll(p);
            && q.closed && q.lists == map[] && q.inflight == p.inflight && q.table == p.table
            && q.timers.Keys == p.timers.Keys
            && Halts(p, q, set k, s | k in p.lists && s in p.lists[k] :: s)
  {
  }
}

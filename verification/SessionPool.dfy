/**
 * What the SessionManager's mutex guards, and what each of its critical sections does to
 * it. A managed session and its client are created together and share one identity.
 */
module SessionPool {
  import opened Options

  type Sid = nat
  type TimerId = nat

  datatype Key = Key(serial: string, username: string, password: string, p2pPort: int, maxRealms: int)

  datatype Managed = Managed(refCount: int, timer: Option<TimerId>, maxRealms: int)

  /** An idle timer; Fired means that its callback has started and waits for the mutex. */
  datatype TimerState = Armed | Fired | Stopped | Ran

  datatype Timer = Timer(state: TimerState, key: Key, sid: Sid)

  datatype Pool = Pool(
    closed: bool,
    lists: map<Key, seq<Sid>>,
    inflight: set<Key>,
    table: map<Sid, Managed>,
    timers: map<TimerId, Timer>)

  const EMPTY := Pool(false, map[], {}, map[], map[])

  // Lists

  function List(lists: map<Key, seq<Sid>>, k: Key): seq<Sid> {
    if k in lists then lists[k] else []
  }

  /** Store a list, or drop the key when it is empty. */
  function SetList(lists: map<Key, seq<Sid>>, k: Key, l: seq<Sid>): map<Key, seq<Sid>> {
    if l == [] then lists - {k} else lists[k := l]
  }

  /** The sessions of l outside drop, in order. */
  function Without(l: seq<Sid>, drop: set<Sid>): (r: seq<Sid>)
    ensures forall s :: s in r <==> s in l && s !in drop
  {
    if l == [] then [] else (if l[0] in drop then [] else [l[0]]) + Without(l[1..], drop)
  }

  predicate Distinct(l: seq<Sid>) {
    forall i, j :: 0 <= i < j < |l| ==> l[i] != l[j]
  }

  lemma {:induction false} WithoutKeeps(l: seq<Sid>, drop: set<Sid>)
    requires Distinct(l)
    ensures Distinct(Without(l, drop)) && |Without(l, drop)| <= |l|
  {
    if l != [] {
      WithoutKeeps(l[1..], drop);
      var rest := Without(l[1..], drop);
      assert l[0] !in l[1..];
      assert l[0] !in rest;
    }
  }

  // Timers

  /** Timer.Stop: an armed timer will not fire; a fired one still runs its callback. */
  function Stop(timers: map<TimerId, Timer>, t: Option<TimerId>): map<TimerId, Timer> {
    if t.Some? && t.value in timers && timers[t.value].state == Armed
    then timers[t.value := timers[t.value].(state := Stopped)]
    else timers
  }

  function TimerOf(table: map<Sid, Managed>, s: Sid): Option<TimerId> {
    if s in table then table[s].timer else None
  }

  /** Stop the timers of all these sessions. */
  function StopEach(timers: map<TimerId, Timer>, table: map<Sid, Managed>, these: set<Sid>): map<TimerId, Timer> {
    map t | t in timers ::
      if timers[t].state == Armed && exists s :: s in these && TimerOf(table, s) == Some(t)
      then timers[t].(state := Stopped) else timers[t]
  }

  // Acquire

  /** findAvailableSession, first loop: drop the sessions seen dead and stop their timers. */
  function Compact(p: Pool, k: Key, dead: set<Sid>): Pool {
    var l := List(p.lists, k);
    p.(lists := SetList(p.lists, k, Without(l, dead)),
       timers := StopEach(p.timers, p.table, set s | s in l && s in dead))
  }

  predicate Available(table: map<Sid, Managed>, retired: set<Sid>, s: Sid) {
    s !in retired && s in table && table[s].refCount < table[s].maxRealms
  }

  /** Second loop: the first session that is not retired and has capacity. */
  function FirstAvailable(l: seq<Sid>, table: map<Sid, Managed>, retired: set<Sid>): (r: Option<Sid>)
    ensures r.Some? ==> r.value in l && Available(table, retired, r.value)
    ensures r.None? ==> forall s :: s in l ==> !Available(table, retired, s)
  {
    if l == [] then None
    else if Available(table, retired, l[0]) then Some(l[0])
    else FirstAvailable(l[1..], table, retired)
  }

  datatype Outcome = Refused | Hit(sid: Sid) | PortFull | Wait | Handshake

  function Reserve(p: Pool, s: Sid): Pool
    requires s in p.table
  {
    var m := p.table[s];
    p.(table := p.table[s := m.(refCount := m.refCount + 1, timer := None)], timers := Stop(p.timers, m.timer))
  }

  /** The first critical section of Acquire, with the clients seen closed and seen retired. */
  function Enter(p: Pool, k: Key, dead: set<Sid>, retired: set<Sid>): (Pool, Outcome) {
    if p.closed then (p, Refused)
    else
      var q := Compact(p, k, dead);
      var l := List(q.lists, k);
      match FirstAvailable(l, q.table, retired)
      case Some(s) => (Reserve(q, s), Hit(s))
      case None =>
        if k.p2pPort != 0 && l != [] then (q, PortFull)
        else if k in q.inflight then (q, Wait)
        else (q.(inflight := q.inflight + {k}), Handshake)
  }

  /** The second one: list the new session, unless the handshake failed or the manager closed. */
  function Finish(p: Pool, k: Key, client: Option<Sid>): (Pool, bool) {
    var q := p.(inflight := p.inflight - {k});
    if client.None? || p.closed then (q, false)
    else
      (q.(table := q.table[client.value := Managed(1, None, k.maxRealms)],
          lists := q.lists[k := List(q.lists, k) + [client.value]]),
       true)
  }

  // Forget, Release, idle expiry, CloseAll

  function Unlist(p: Pool, k: Key, s: Sid): Pool {
    p.(lists := SetList(p.lists, k, Without(List(p.lists, k), {s})))
  }

  function Forget(p: Pool, k: Key, s: Sid): Pool {
    Unlist(p, k, s).(timers := Stop(p.timers, TimerOf(p.table, s)))
  }

  /** Release of session s found under key k; the flag says whether its client is to be closed. */
  function ReleaseAt(p: Pool, k: Key, s: Sid, retired: bool, newTimer: TimerId): (Pool, bool)
    requires s in p.table
  {
    var m := p.table[s];
    if m.refCount - 1 > 0 then (p.(table := p.table[s := m.(refCount := m.refCount - 1)]), false)
    else
      var q := p.(table := p.table[s := m.(refCount := 0, timer := None)], timers := Stop(p.timers, m.timer));
      if retired then (Unlist(q, k, s), true)
      else
        (q.(table := q.table[s := m.(refCount := 0, timer := Some(newTimer))],
            timers := q.timers[newTimer := Timer(Armed, k, s)]),
         false)
  }

  /** The idle callback: a session that nobody holds leaves the list and is to be closed. */
  function IdleRun(p: Pool, t: TimerId): (Pool, bool)
    requires t in p.timers
  {
    var timer := p.timers[t];
    var q := p.(timers := p.timers[t := timer.(state := Ran)]);
    if timer.sid in List(p.lists, timer.key) && timer.sid in p.table && p.table[timer.sid].refCount <= 0
    then (Unlist(q, timer.key, timer.sid), true)
    else (q, false)
  }

  /** Every listed session. */
  function AllListed(p: Pool): set<Sid> {
    set k, s | k in p.lists && s in p.lists[k] :: s
  }

  function CloseAll(p: Pool): Pool {
    Pool(true, map[], p.inflight, p.table, StopEach(p.timers, p.table, AllListed(p)))
  }
}

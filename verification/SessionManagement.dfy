/**
 * The session manager as the source runs it: fields updated under its mutex, loops over
 * the lists, and lists compacted in place. Each method is one critical section, proved
 * against what SessionPool says that section does.
 */
module SessionManagement {
  import opened Options
  import opened SessionPool

  const DEFAULT_MAX_REALMS := 8

  /** The key of a configuration: only the capacity has a default. */
  method SessionKeyFor(serial: string, username: string, password: string, p2pPort: int, maxRealms: int)
      returns (k: Key)
    ensures k.maxRealms > 0 && (maxRealms > 0 ==> k.maxRealms == maxRealms) && (maxRealms <= 0 ==> k.maxRealms == 8)
    ensures k == Key(serial, username, password, p2pPort, k.maxRealms)
  {
    var capacity := maxRealms;
    if capacity <= 0 {
      capacity := DEFAULT_MAX_REALMS;
    }
    k := Key(serial, username, password, p2pPort, capacity);
  }

  // In place on the backing array of a list

  lemma {:induction false} WithoutSnoc(l: seq<Sid>, s: Sid, drop: set<Sid>)
    ensures Without(l + [s], drop) == Without(l, drop) + if s in drop then [] else [s]
  {
    if l == [] {
      assert l + [s] == [s] && [s][1..] == [];
    } else {
      var rest, all := l[1..], l + [s];
      assert all[0] == l[0] && all[1..] == rest + [s];
      WithoutSnoc(rest, s, drop);
      var head := if l[0] in drop then [] else [l[0]];
      var last := if s in drop then [] else [s];
      assert Without(all, drop) == head + (Without(rest, drop) + last);
      assert head + (Without(rest, drop) + last) == head + Without(rest, drop) + last;
    }
  }

  lemma WithoutNext(l: seq<Sid>, i: nat, drop: set<Sid>)
    requires i < |l|
    ensures Without(l[..i + 1], drop) == Without(l[..i], drop) + if l[i] in drop then [] else [l[i]]
  {
    assert l[..i + 1] == l[..i] + [l[i]];
    WithoutSnoc(l[..i], l[i], drop);
  }

  lemma {:induction false} WithoutNone(l: seq<Sid>, drop: set<Sid>)
    requires forall s :: s in l ==> s !in drop
    ensures Without(l, drop) == l
  {
    if l != [] {
      WithoutNone(l[1..], drop);
    }
  }

  lemma {:induction false} RemovedOnce(l: seq<Sid>, i: nat)
    requires i < |l| && Distinct(l)
    ensures Without(l, {l[i]}) == l[..i] + l[i + 1..]
  {
    if i == 0 {
      WithoutNone(l[1..], {l[0]});
    } else {
      RemovedOnce(l[1..], i - 1);
      assert l[..i] + l[i + 1..] == [l[0]] + (l[1..][..i - 1] + l[1..][i..]);
    }
  }

  /** One append to live := sessions[:0], which shares the array of the list it filters. */
  method MoveDown(a: array<Sid>, k: nat, i: nat)
    requires k <= i < a.Length
    modifies a
    ensures a[..k + 1] == old(a[..k]) + [old(a[i])]
    ensures a[i + 1..] == old(a[i + 1..])
  {
    a[k] := a[i];
  }

  /** The first loop of findAvailableSession: what stays moves to the front of the same array. */
  method CompactInPlace(a: array<Sid>, n: nat, dead: set<Sid>) returns (k: nat)
    requires n <= a.Length
    modifies a
    ensures k <= n
    ensures a[..k] == Without(old(a[..n]), dead)
    ensures a[n..] == old(a[n..])
  {
    k := 0;
    ghost var was := a[..];
    for i := 0 to n
      invariant k <= i && a[i..] == was[i..]
      invariant a[..k] == Without(was[..i], dead)
    {
      WithoutNext(was, i, dead);
      assert a[i] == a[i..][0] == was[i] && a[i + 1..] == a[i..][1..];
      if a[i] !in dead {
        MoveDown(a, k, i);
        k := k + 1;
      }
    }
  }

  /** append(list[:i], list[i+1:]...): everything behind s moves one place to the front. */
  method RemoveInPlace(a: array<Sid>, n: nat, s: Sid) returns (k: nat)
    requires n <= a.Length && Distinct(a[..n])
    modifies a
    ensures k <= n
    ensures a[..k] == Without(old(a[..n]), {s})
  {
    ghost var was := a[..n];
    var i := 0;
    while i < n && a[i] != s
      invariant i <= n && a[..n] == was && s !in was[..i]
    {
      i := i + 1;
    }
    if i == n {
      assert was[..n] == was;
      WithoutNone(was, {s});
      return n;
    }
    assert was[i] == s;
    RemovedOnce(was, i);
    ShiftLeft(a, i, n);
    return n - 1;
  }

  method ShiftLeft(a: array<Sid>, i: nat, n: nat)
    requires i < n <= a.Length
    modifies a
    ensures a[..n - 1] == old(a[..n])[..i] + old(a[..n])[i + 1..]
  {
    ghost var was := a[..n];
    for j := i + 1 to n
      invariant a[..j - 1] == was[..i] + was[i + 1..j]
      invariant forall x :: j <= x < n ==> a[x] == was[x]
    {
      ghost var front := a[..j - 1];
      a[j - 1] := a[j];
      assert a[..j] == front + [was[j]];
    }
    assert was[i + 1..n] == was[i + 1..];
  }

  /** Stopping one timer after some others. */
  lemma StopEachStep(timers: map<TimerId, Timer>, table: map<Sid, Managed>, these: set<Sid>, s: Sid)
    ensures StopEach(timers, table, these + {s}) == Stop(StopEach(timers, table, these), TimerOf(table, s))
  {
  }

  ghost function DeadIn(l: seq<Sid>, dead: set<Sid>): set<Sid> {
    set s | s in l && s in dead
  }

  lemma DeadNext(timers: map<TimerId, Timer>, table: map<Sid, Managed>, l: seq<Sid>, i: nat, dead: set<Sid>)
    requires i < |l|
    ensures StopEach(timers, table, DeadIn(l[..i + 1], dead)) ==
            var before := StopEach(timers, table, DeadIn(l[..i], dead));
            if l[i] in dead then Stop(before, TimerOf(table, l[i])) else before
  {
  }

  lemma StopEachNone(timers: map<TimerId, Timer>, table: map<Sid, Managed>)
    ensures StopEach(timers, table, {}) == timers
  {
  }

  /** removeSession: the list without the first, and only, occurrence of s. */
  method RemoveSession(list: seq<Sid>, s: Sid) returns (rest: seq<Sid>)
    requires Distinct(list)
    ensures rest == Without(list, {s})
  {
    for i := 0 to |list|
      invariant s !in list[..i]
    {
      if list[i] == s {
        RemovedOnce(list, i);
        return list[..i] + list[i + 1..];
      }
    }
    assert list[..|list|] == list;
    WithoutNone(list, {s});
    return list;
  }

  class SessionManager {
    var closed: bool
    var sessions: map<Key, seq<Sid>>
    var inflight: set<Key>
    var table: map<Sid, Managed>
    var timers: map<TimerId, Timer>

    function View(): Pool
      reads this
    {
      Pool(closed, sessions, inflight, table, timers)
    }

    /** Lists have no duplicates, share no session, and hold known sessions only. */
    ghost predicate Valid()
      reads this
    {
      && (forall k :: k in sessions ==> Distinct(sessions[k]))
      && (forall k, s :: k in sessions && s in sessions[k] ==> s in table)
      && (forall k, k', s :: k in sessions && k' in sessions && s in sessions[k] && s in sessions[k'] ==> k == k')
    }

    constructor ()
      ensures Valid() && View() == EMPTY
    {
      closed, sessions, inflight, table, timers := false, map[], {}, map[], map[];
    }

    /** Drop the dead sessions of a key and return the first one that has room. */
    method FindAvailableSession(key: Key, dead: set<Sid>, retired: set<Sid>) returns (found: Option<Sid>)
      requires Valid()
      modifies this
      ensures Valid() && View() == Compact(old(View()), key, dead)
      ensures found == FirstAvailable(List(sessions, key), table, retired)
    {
      var list := if key in sessions then sessions[key] else [];
      var live := DropDead(list, dead);
      sessions := SetList(sessions, key, live);
      WithoutKeeps(list, dead);
      found := PickFirst(live, retired);
    }

    /** The first loop: keep the live sessions and stop the timers of the others. */
    method DropDead(list: seq<Sid>, dead: set<Sid>) returns (live: seq<Sid>)
      modifies this`timers
      ensures live == Without(list, dead)
      ensures timers == StopEach(old(timers), table, DeadIn(list, dead))
    {
      live := [];
      StopEachNone(timers, table);
      for i := 0 to |list|
        invariant live == Without(list[..i], dead)
        invariant timers == StopEach(old(timers), table, DeadIn(list[..i], dead))
      {
        WithoutNext(list, i, dead);
        DeadNext(old(timers), table, list, i, dead);
        if list[i] in dead {
          timers := Stop(timers, TimerOf(table, list[i]));
        } else {
          live := live + [list[i]];
        }
      }
      assert list[..|list|] == list;
    }

    /** The second loop. */
    method PickFirst(live: seq<Sid>, retired: set<Sid>) returns (found: Option<Sid>)
      ensures found == FirstAvailable(live, table, retired)
    {
      for i := 0 to |live|
        invariant FirstAvailable(live, table, retired) == FirstAvailable(live[i..], table, retired)
      {
        if Available(table, retired, live[i]) {
          return Some(live[i]);
        }
        assert live[i..][1..] == live[i + 1..];
      }
      return None;
    }

    /** One more holder, and no idle timer. */
    method ReserveSession(s: Sid)
      requires Valid() && s in table
      modifies this
      ensures Valid() && View() == Reserve(old(View()), s)
    {
      var m := table[s];
      timers := Stop(timers, m.timer);
      table := table[s := m.(refCount := m.refCount + 1, timer := None)];
    }

    /** The first critical section of Acquire. */
    method AcquireEnter(key: Key, dead: set<Sid>, retired: set<Sid>) returns (out: Outcome)
      requires Valid()
      modifies this
      ensures Valid() && (View(), out) == Enter(old(View()), key, dead, retired)
    {
      hide Compact, Reserve;
      if closed {
        return Refused;
      }
      var found := FindAvailableSession(key, dead, retired);
      if found.Some? {
        ReserveSession(found.value);
        return Hit(found.value);
      }
      if key.p2pPort != 0 && key in sessions && |sessions[key]| != 0 {
        return PortFull;
      }
      if key in inflight {
        return Wait;
      }
      inflight := inflight + {key};
      return Handshake;
    }

    /** The second critical section of Acquire, for a new client or a failed handshake. */
    method AcquireFinish(key: Key, client: Option<Sid>) returns (listed: bool)
      requires Valid()
      requires client.Some? ==> forall k :: k in sessions ==> client.value !in sessions[k]
      modifies this
      ensures Valid() && (View(), listed) == Finish(old(View()), key, client)
    {
      inflight := inflight - {key};
      if client.None? || closed {
        return false;
      }
      table := table[client.value := Managed(1, None, key.maxRealms)];
      sessions := sessions[key := (if key in sessions then sessions[key] else []) + [client.value]];
      return true;
    }

    /** removeSession, then drop the key if nothing is left. */
    method Unlist(key: Key, s: Sid)
      requires Valid()
      modifies this
      ensures Valid() && View() == SessionPool.Unlist(old(View()), key, s)
    {
      var list := if key in sessions then sessions[key] else [];
      var rest := RemoveSession(list, s);
      sessions := SetList(sessions, key, rest);
      WithoutKeeps(list, {s});
    }

    method ForgetSession(key: Key, s: Sid)
      requires Valid()
      modifies this
      ensures Valid() && View() == Forget(old(View()), key, s)
    {
      timers := Stop(timers, TimerOf(table, s));
      Unlist(key, s);
    }

    /**
     * Release: look through the keys of the serial, in any order, for the client's session.
     * Exactly its own list can hold it; a client that is nowhere listed is left alone.
     */
    method Release(serial: string, s: Sid, retired: bool, newTimer: TimerId) returns (close: bool)
      requires Valid()
      modifies this
      ensures Valid()
      ensures forall k :: k in old(sessions) && k.serial == serial && s in old(sessions)[k] ==>
                (View(), close) == ReleaseAt(old(View()), k, s, retired, newTimer)
      ensures (forall k :: k in old(sessions) && k.serial == serial ==> s !in old(sessions)[k]) ==>
                View() == old(View()) && !close
    {
      var keys := sessions.Keys;
      while keys != {}
        invariant keys <= sessions.Keys && View() == old(View()) && Valid()
        invariant forall k :: k in sessions && k !in keys && k.serial == serial ==> s !in sessions[k]
        decreases keys
      {
        var key :| key in keys;
        if key.serial == serial && s in sessions[key] {
          close := ReleaseFound(key, s, retired, newTimer);
          return;
        }
        keys := keys - {key};
      }
      return false;
    }

    method ReleaseFound(key: Key, s: Sid, retired: bool, newTimer: TimerId) returns (close: bool)
      requires Valid() && key in sessions && s in sessions[key]
      modifies this
      ensures Valid() && (View(), close) == ReleaseAt(old(View()), key, s, retired, newTimer)
    {
      var m := table[s];
      var count := m.refCount - 1;
      if count > 0 {
        table := table[s := m.(refCount := count)];
        return false;
      }
      timers := Stop(timers, m.timer);
      table := table[s := m.(refCount := 0, timer := None)];
      if retired {
        Unlist(key, s);
        return true;
      }
      table := table[s := m.(refCount := 0, timer := Some(newTimer))];
      timers := timers[newTimer := Timer(Armed, key, s)];
      return false;
    }

    /** The callback of an idle timer. */
    method IdleCallback(t: TimerId) returns (close: bool)
      requires Valid() && t in timers
      modifies this
      ensures Valid() && (View(), close) == IdleRun(old(View()), t)
    {
      var timer := timers[t];
      timers := timers[t := timer.(state := Ran)];
      var list := if timer.key in sessions then sessions[timer.key] else [];
      if timer.sid in list && table[timer.sid].refCount <= 0 {
        Unlist(timer.key, timer.sid);
        return true;
      }
      return false;
    }

    /** CloseAll: close for good, stop every timer, empty the map, and return what to close. */
    method CloseAllSessions() returns (all: set<Sid>)
      requires Valid()
      modifies this
      ensures Valid() && View() == CloseAll(old(View()))
      ensures all == AllListed(old(View()))
    {
      closed := true;
      all := {};
      StopEachNone(timers, table);
      while sessions != map[]
        invariant closed && inflight == old(inflight) && table == old(table)
        invariant forall k :: k in sessions ==> k in old(sessions) && sessions[k] == old(sessions)[k]
        invariant all == set k, s | k in old(sessions) && k !in sessions && s in old(sessions)[k] :: s
        invariant timers == StopEach(old(timers), table, all)
        decreases sessions.Keys
      {
        var key :| key in sessions;
        StopList(sessions[key], all);
        all := all + set s | s in sessions[key];
        sessions := sessions - {key};
      }
    }

    /** The inner loop of CloseAll. */
    method StopList(list: seq<Sid>, ghost before: set<Sid>)
      modifies this`timers
      ensures forall ts :: old(timers) == StopEach(ts, table, before) ==>
                timers == StopEach(ts, table, before + set s | s in list)
    {
      ghost var seen := before;
      for i := 0 to |list|
        invariant seen == before + set s | s in list[..i]
        invariant forall ts :: old(timers) == StopEach(ts, table, before) ==> timers == StopEach(ts, table, seen)
      {
        forall ts | old(timers) == StopEach(ts, table, before)
          ensures Stop(timers, TimerOf(table, list[i])) == StopEach(ts, table, seen + {list[i]})
        {
          StopEachStep(ts, table, seen, list[i]);
        }
        timers := Stop(timers, TimerOf(table, list[i]));
        seen := seen + {list[i]};
      }
    }
  }
}

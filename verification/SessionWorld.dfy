/**
 * Every run of the session manager: Acquire, Release, idle timers, tunnel death,
 * retirement and CloseAll interleaved at the grain of the manager's critical sections,
 * with timers that may have fired before they are stopped.
 */
module SessionWorld {
  import opened Options
  import opened SessionPool

  type Tid = nat

  /**
   * The tunnel-closed callback: whether SetOnClose has been called, whether the tunnel keeps
   * the function it was given, how many calls of it are under way, and how many have run.
   */
  datatype Callback = Callback(given: bool, installed: bool, due: nat, ran: nat)

  const NO_CALLBACK := Callback(false, false, 0, 0)

  /** A connected client with the key it was connected for. */
  datatype Client = Client(key: Key, closed: bool, retired: bool, hook: Callback)

  /** An Acquire between its critical sections. */
  datatype Pc =
    | Handshaking(k: Key)
    | Connected(k: Key, s: Sid)
    | Broken(k: Key)              // the handshake failed
    | Hooking(k: Key, s: Sid)     // listed, SetOnClose still to be called
    | Discarding(s: Sid)          // not listed, Close still to be called

  /**
   * clients: everything ever connected; holders: reservations handed out and not released;
   * owner: the Acquire a client still belongs to; flight: the Acquire that shakes hands
   * for a key.
   */
  datatype Env = Env(
    clients: map<Sid, Client>,
    holders: map<Sid, nat>,
    owner: map<Sid, Tid>,
    flight: map<Key, Tid>)

  /** Close calls that some goroutine still has to make. */
  datatype Owed = Owed(idle: set<Sid>, shutdown: set<Sid>)

  datatype World = World(pool: Pool, env: Env, owed: Owed, threads: map<Tid, Pc>)

  const START := World(EMPTY, Env(map[], map[], map[], map[]), Owed({}, {}), map[])

  datatype Event =
    | EnterAcquire(t: Tid, k: Key, dead: set<Sid>, retired: set<Sid>)
    | Shake(t: Tid, client: Option<Sid>) // the handshake returns a client, or an error
    | FinishAcquire(t: Tid)
    | Settle(t: Tid)                     // SetOnClose, or Close of an unlisted client
    | Die(s: Sid)                        // the tunnel closes by itself
    | Retire(s: Sid)
    | RunHook(s: Sid)
    | ReleaseOne(s: Sid, newTimer: TimerId)
    | Fire(timer: TimerId)
    | Idle(timer: TimerId)
    | Pay(s: Sid)                        // a Close that was owed
    | Shutdown                           // CloseAll

  // Clients

  function CallHook(hook: Callback): Callback {
    hook.(due := hook.due + 1)
  }

  /** Tunnel.Close: unless the tunnel is closed already, close it and call what is installed. */
  function CloseClient(c: Client): Client {
    if c.closed then c else c.(closed := true, hook := if c.hook.installed then CallHook(c.hook) else c.hook)
  }

  /** Tunnel.SetOnClose: a closed tunnel calls the function at once, another one keeps it. */
  function SetHook(c: Client): Client {
    var hook := c.hook.(given := true);
    c.(hook := if c.closed then CallHook(hook) else hook.(installed := true))
  }

  function WithClient(w: World, s: Sid, c: Client): World {
    w.(env := w.env.(clients := w.env.clients[s := c]))
  }

  // Events

  /** What a critical section sees of the clients: those it finds closed or retired are. */
  predicate Seen(env: Env, dead: set<Sid>, retired: set<Sid>) {
    && (forall s :: s in dead ==> s in env.clients && env.clients[s].closed)
    && (forall s :: s in retired ==> s in env.clients && (env.clients[s].retired || env.clients[s].closed))
  }

  predicate Enabled(w: World, e: Event) {
    match e
    case EnterAcquire(t, k, dead, retired) => t !in w.threads && k.maxRealms > 0 && Seen(w.env, dead, retired)
    case Shake(t, s) =>
      t in w.threads && w.threads[t].Handshaking? && (s.Some? ==> s.value !in w.env.clients)
    case FinishAcquire(t) => t in w.threads && (w.threads[t].Connected? || w.threads[t].Broken?)
    case Settle(t) =>
      && t in w.threads && (w.threads[t].Hooking? || w.threads[t].Discarding?)
      && w.threads[t].s in w.env.clients
    case Die(s) => s in w.env.clients
    case Retire(s) => s in w.env.clients
    case RunHook(s) => s in w.env.clients && w.env.clients[s].hook.due > 0
    case ReleaseOne(s, newTimer) =>
      && s in w.env.clients && s in w.env.holders
      && w.env.holders[s] > (if s in w.env.owner then 1 else 0)  // not by an Acquire that has yet to return
      && newTimer !in w.pool.timers
    case Fire(timer) => timer in w.pool.timers && w.pool.timers[timer].state == Armed
    case Idle(timer) => timer in w.pool.timers && w.pool.timers[timer].state == Fired
    case Pay(s) => s in w.owed.idle + w.owed.shutdown && s in w.env.clients
    case Shutdown => true
  }

  function Apply(w: World, e: Event): World
    requires Enabled(w, e)
  {
    match e
    case EnterAcquire(t, k, dead, retired) => ApplyEnter(w, t, k, dead, retired)
    case Shake(t, s) => ApplyShake(w, t, w.threads[t].k, s)
    case FinishAcquire(t) => ApplyFinish(w, t, w.threads[t])
    case Settle(t) => ApplySettle(w, t, w.threads[t])
    case Die(s) => WithClient(w, s, CloseClient(w.env.clients[s]))
    case Retire(s) => WithClient(w, s, w.env.clients[s].(retired := true))
    case RunHook(s) => ApplyHook(w, s)
    case ReleaseOne(s, newTimer) => ApplyRelease(w, s, newTimer)
    case Fire(timer) => w.(pool := w.pool.(timers := w.pool.timers[timer := w.pool.timers[timer].(state := Fired)]))
    case Idle(timer) => ApplyIdle(w, timer)
    case Pay(s) => ApplyPay(w, s)
    case Shutdown =>
      w.(pool := CloseAll(w.pool), owed := w.owed.(shutdown := w.owed.shutdown + AllListed(w.pool)))
  }

  function Holders(env: Env, s: Sid): nat {
    if s in env.holders then env.holders[s] else 0
  }

  function ApplyEnter(w: World, t: Tid, k: Key, dead: set<Sid>, retired: set<Sid>): World {
    var (pool, out) := Enter(w.pool, k, dead, retired);
    match out
    case Hit(s) => w.(pool := pool, env := w.env.(holders := w.env.holders[s := Holders(w.env, s) + 1]))
    case Handshake =>
      w.(pool := pool, threads := w.threads[t := Handshaking(k)], env := w.env.(flight := w.env.flight[k := t]))
    case _ => w.(pool := pool)
  }

  function ApplyShake(w: World, t: Tid, k: Key, s: Option<Sid>): World {
    if s.None? then w.(threads := w.threads[t := Broken(k)])
    else
      w.(threads := w.threads[t := Connected(k, s.value)],
         env := w.env.(clients := w.env.clients[s.value := Client(k, false, false, NO_CALLBACK)],
                       holders := w.env.holders[s.value := 0],
                       owner := w.env.owner[s.value := t]))
  }

  function FinishEnv(env: Env, pc: Pc, listed: bool): Env
    requires pc.Connected? || pc.Broken?
  {
    env.(flight := env.flight - {pc.k}, holders := if listed && pc.Connected? then env.holders[pc.s := 1] else env.holders)
  }

  function FinishThreads(threads: map<Tid, Pc>, t: Tid, pc: Pc, listed: bool): map<Tid, Pc>
    requires pc.Connected? || pc.Broken?
  {
    if pc.Broken? then threads - {t}
    else threads[t := if listed then Hooking(pc.k, pc.s) else Discarding(pc.s)]
  }

  function ApplyFinish(w: World, t: Tid, pc: Pc): World
    requires pc.Connected? || pc.Broken?
  {
    var (pool, listed) := Finish(w.pool, pc.k, if pc.Connected? then Some(pc.s) else None);
    World(pool, FinishEnv(w.env, pc, listed), w.owed, FinishThreads(w.threads, t, pc, listed))
  }

  function ApplySettle(w: World, t: Tid, pc: Pc): World
    requires (pc.Hooking? || pc.Discarding?) && pc.s in w.env.clients
  {
    var c := w.env.clients[pc.s];
    w.(threads := w.threads - {t},
       env := w.env.(clients := w.env.clients[pc.s := if pc.Hooking? then SetHook(c) else CloseClient(c)],
                     owner := w.env.owner - {pc.s}))
  }

  function Forgotten(w: World, k: Key, s: Sid): World {
    w.(pool := Forget(w.pool, k, s))
  }

  function HookDone(c: Client): Client
    requires c.hook.due > 0
  {
    c.(hook := c.hook.(due := c.hook.due - 1, ran := c.hook.ran + 1))
  }

  function ApplyHook(w: World, s: Sid): World
    requires s in w.env.clients && w.env.clients[s].hook.due > 0
  {
    var c := w.env.clients[s];
    WithClient(Forgotten(w, c.key, s), s, HookDone(c))
  }

  function ApplyRelease(w: World, s: Sid, newTimer: TimerId): World
    requires s in w.env.clients && s in w.env.holders && w.env.holders[s] > 0
  {
    var c := w.env.clients[s];
    var env := w.env.(holders := w.env.holders[s := w.env.holders[s] - 1]);
    if s in List(w.pool.lists, c.key) && s in w.pool.table then
      var (pool, close) := ReleaseAt(w.pool, c.key, s, c.retired || c.closed, newTimer);
      w.(pool := pool, env := env, owed := if close then w.owed.(idle := w.owed.idle + {s}) else w.owed)
    else
      w.(env := env)
  }

  function ApplyIdle(w: World, timer: TimerId): World
    requires timer in w.pool.timers
  {
    var (pool, close) := IdleRun(w.pool, timer);
    w.(pool := pool, owed := if close then w.owed.(idle := w.owed.idle + {w.pool.timers[timer].sid}) else w.owed)
  }

  function Settled(w: World, s: Sid): World {
    w.(owed := Owed(w.owed.idle - {s}, w.owed.shutdown - {s}))
  }

  function ApplyPay(w: World, s: Sid): World
    requires s in w.env.clients
  {
    Settled(WithClient(w, s, CloseClient(w.env.clients[s])), s)
  }

  predicate Run(w: World, es: seq<Event>)
    decreases |es|
  {
    es == [] || (Enabled(w, es[0]) && Run(Apply(w, es[0]), es[1..]))
  }

  function After(w: World, es: seq<Event>): World
    requires Run(w, es)
    decreases |es|
  {
    if es == [] then w else After(Apply(w, es[0]), es[1..])
  }

  ghost predicate Reachable(w: World) {
    exists es :: Run(START, es) && After(START, es) == w
  }

  // The invariant

  /** The Acquire stage a client is in, if any. */
  datatype Stage = Free | Fresh | Hook | Discard

  function OwnedBy(pc: Pc): Option<Sid> {
    match pc
    case Connected(_, s) => Some(s)
    case Hooking(_, s) => Some(s)
    case Discarding(s) => Some(s)
    case _ => None
  }

  function FlightKey(pc: Pc): Option<Key> {
    match pc
    case Handshaking(k) => Some(k)
    case Broken(k) => Some(k)
    case Connected(k, _) => Some(k)
    case _ => None
  }

  function StageOf(owner: map<Sid, Tid>, threads: map<Tid, Pc>, s: Sid): Stage {
    if s in owner && owner[s] in threads then
      match threads[owner[s]]
      case Connected(_, _) => Fresh
      case Hooking(_, _) => Hook
      case Discarding(_) => Discard
      case _ => Free
    else Free
  }

  function SafeKey(clients: map<Sid, Client>, s: Sid): Option<Key> {
    if s in clients then Some(clients[s].key) else None
  }

  /** Lists are non-empty, without duplicates, and hold only sessions of their own key. */
  ghost predicate ListsOk(lists: map<Key, seq<Sid>>, clients: map<Sid, Client>) {
    && (forall k :: k in lists ==> lists[k] != [] && Distinct(lists[k]))
    && (forall k, s :: k in lists && s in lists[k] ==> SafeKey(clients, s) == Some(k))
  }

  /** Timers know whose they are. */
  ghost predicate TimersOk(table: map<Sid, Managed>, timers: map<TimerId, Timer>, clients: map<Sid, Client>) {
    && (forall s :: s in table && table[s].timer.Some? ==>
          table[s].timer.value in timers && timers[table[s].timer.value].sid == s)
    && (forall t :: t in timers ==> SafeKey(clients, timers[t].sid) == Some(timers[t].key))
  }

  /** Every stage of an Acquire belongs to exactly one goroutine, and every handshake to one key. */
  ghost predicate LinksOk(env: Env, threads: map<Tid, Pc>) {
    && (forall s :: s in env.owner ==>
          s in env.clients && env.owner[s] in threads && OwnedBy(threads[env.owner[s]]) == Some(s))
    && (forall k :: k in env.flight ==> env.flight[k] in threads && FlightKey(threads[env.flight[k]]) == Some(k))
    && (forall t :: t in threads ==> ThreadOk(env, t, threads[t]))
  }

  ghost predicate ThreadOk(env: Env, t: Tid, pc: Pc) {
    && (OwnedBy(pc).Some? ==> OwnedBy(pc).value in env.owner && env.owner[OwnedBy(pc).value] == t)
    && (FlightKey(pc).Some? ==> FlightKey(pc).value in env.flight && env.flight[FlightKey(pc).value] == t
                                && FlightKey(pc).value.maxRealms > 0)
    && (pc.Connected? || pc.Hooking? ==> SafeKey(env.clients, pc.s) == Some(pc.k))
  }

  /** One session per key with a fixed port, and none while a handshake for it is in progress. */
  ghost predicate PortsOk(lists: map<Key, seq<Sid>>, inflight: set<Key>) {
    && (forall k :: k in lists && k.p2pPort != 0 ==> |lists[k]| <= 1)
    && (forall k :: k in inflight && k.p2pPort != 0 ==> k !in lists)
  }

  /** Reservations are counted exactly and within capacity, and an idle session has a live timer. */
  ghost predicate CountOk(m: Managed, timers: map<TimerId, Timer>, k: Key, held: nat) {
    && m.refCount == held <= m.maxRealms == k.maxRealms
    && (held > 0 ==> m.timer.None?)
    && (held == 0 ==> m.timer.Some? && m.timer.value in timers
                      && (timers[m.timer.value].state == Armed || timers[m.timer.value].state == Fired))
  }

  /** Where a client may be, and what is known about its callback there. */
  ghost predicate PlaceOk(c: Client, listed: bool, held: nat, stage: Stage, idle: bool, down: bool) {
    && c.key.maxRealms > 0
    && (c.closed || listed || idle || down || stage != Free)
    && (idle ==> !listed && held == 0 && stage == Free)
    && (stage == Fresh || stage == Discard ==> !listed && held == 0 && !c.hook.given)
    && (stage == Hook ==> held >= 1 && !c.hook.given && (c.closed || listed || down))
    && CallbackOk(c, listed, stage)
  }

  /** Once SetOnClose was called, a closed tunnel has one call under way or run, and an open one none. */
  ghost predicate CallbackOk(c: Client, listed: bool, stage: Stage) {
    && (!c.hook.given ==> c.hook == NO_CALLBACK && (listed ==> stage == Hook))
    && (c.hook.given ==> c.hook.due + c.hook.ran == (if c.closed then 1 else 0) && (c.closed || c.hook.installed))
    && (c.hook.ran > 0 ==> !listed)
  }

  predicate Listed(w: World, s: Sid)
    requires s in w.env.clients
  {
    s in List(w.pool.lists, w.env.clients[s].key)
  }

  ghost predicate ClientOk(w: World, s: Sid)
    requires s in w.env.clients
  {
    var c, held := w.env.clients[s], Holders(w.env, s);
    && PlaceOk(c, Listed(w, s), held, StageOf(w.env.owner, w.threads, s), s in w.owed.idle, s in w.owed.shutdown)
    && (Listed(w, s) ==> s in w.pool.table && CountOk(w.pool.table[s], w.pool.timers, c.key, held))
  }

  ghost predicate SharedOk(w: World) {
    && ListsOk(w.pool.lists, w.env.clients)
    && TimersOk(w.pool.table, w.pool.timers, w.env.clients)
    && LinksOk(w.env, w.threads)
    && PortsOk(w.pool.lists, w.pool.inflight)
    && w.pool.inflight == w.env.flight.Keys
    && (w.pool.closed ==> w.pool.lists == map[])
    && w.owed.idle + w.owed.shutdown <= w.env.clients.Keys
  }

  ghost predicate Inv(w: World) {
    SharedOk(w) && forall s :: s in w.env.clients ==> ClientOk(w, s)
  }

  /** The live timer of a session is the same before and after. */
  predicate SameTimer(m: Managed, timers: map<TimerId, Timer>, timers': map<TimerId, Timer>) {
    m.timer.Some? && m.timer.value in timers ==>
      m.timer.value in timers' && timers'[m.timer.value] == timers[m.timer.value]
  }

  /** A step that does not concern a client keeps what holds of it. */
  lemma SameClient(w: World, w': World, s: Sid)
    requires s in w.env.clients && ClientOk(w, s)
    requires s in w'.env.clients && w'.env.clients[s] == w.env.clients[s]
    requires Listed(w', s) == Listed(w, s)
    requires Holders(w'.env, s) == Holders(w.env, s)
    requires StageOf(w'.env.owner, w'.threads, s) == StageOf(w.env.owner, w.threads, s)
    requires s in w.owed.idle <==> s in w'.owed.idle
    requires s in w.owed.shutdown <==> s in w'.owed.shutdown
    requires Listed(w, s) && s in w.pool.table ==>
               && s in w'.pool.table && w'.pool.table[s] == w.pool.table[s]
               && SameTimer(w.pool.table[s], w.pool.timers, w'.pool.timers)
    ensures ClientOk(w', s)
  {
  }

  // Clients alone

  /** Replacing a client record by one with the same key keeps the shared structure. */
  lemma RekeyedShared(w: World, s: Sid, c: Client)
    requires SharedOk(w) && s in w.env.clients && c.key == w.env.clients[s].key
    ensures SharedOk(WithClient(w, s, c))
  {
    var w' := WithClient(w, s, c);
    assert forall s' :: SafeKey(w'.env.clients, s') == SafeKey(w.env.clients, s');
    forall t | t in w.threads
      ensures ThreadOk(w'.env, t, w.threads[t])
    {
      assert ThreadOk(w.env, t, w.threads[t]);
    }
  }

  lemma ReplaceKeeps(w: World, s: Sid, c: Client)
    requires Inv(w) && s in w.env.clients && c.key == w.env.clients[s].key
    requires PlaceOk(c, Listed(w, s), Holders(w.env, s), StageOf(w.env.owner, w.threads, s),
                     s in w.owed.idle, s in w.owed.shutdown)
    ensures Inv(WithClient(w, s, c))
  {
    var w' := WithClient(w, s, c);
    RekeyedShared(w, s, c);
    assert ClientOk(w, s);
    forall s' | s' in w'.env.clients && s' != s
      ensures ClientOk(w', s')
    {
      SameClient(w, w', s');
    }
  }

  lemma DieKeeps(w: World, s: Sid)
    requires Inv(w) && s in w.env.clients
    ensures Inv(WithClient(w, s, CloseClient(w.env.clients[s])))
  {
    assert ClientOk(w, s);
    ReplaceKeeps(w, s, CloseClient(w.env.clients[s]));
  }

  lemma RetireKeeps(w: World, s: Sid)
    requires Inv(w) && s in w.env.clients
    ensures Inv(WithClient(w, s, w.env.clients[s].(retired := true)))
  {
    assert ClientOk(w, s);
    ReplaceKeeps(w, s, w.env.clients[s].(retired := true));
  }

  lemma SettledKeeps(w: World, s: Sid)
    requires Inv(w) && s in w.env.clients && w.env.clients[s].closed
    ensures Inv(Settled(w, s))
  {
    assert ClientOk(w, s);
    forall s' | s' in w.env.clients && s' != s
      ensures ClientOk(Settled(w, s), s')
    {
      SameClient(w, Settled(w, s), s');
    }
  }

  lemma PayKeeps(w: World, s: Sid)
    requires Inv(w) && s in w.env.clients
    ensures Inv(ApplyPay(w, s))
  {
    DieKeeps(w, s);
    SettledKeeps(WithClient(w, s, CloseClient(w.env.clients[s])), s);
  }

  // Acquire

  lemma ShakeLinks(w: World, t: Tid, k: Key, client: Option<Sid>)
    requires LinksOk(w.env, w.threads) && t in w.threads && w.threads[t] == Handshaking(k)
    requires client.Some? ==> client.value !in w.env.clients
    ensures var w' := ApplyShake(w, t, k, client); LinksOk(w'.env, w'.threads)
  {
    var w' := ApplyShake(w, t, k, client);
    assert ThreadOk(w.env, t, w.threads[t]);
    forall u | u in w'.threads
      ensures ThreadOk(w'.env, u, w'.threads[u])
    {
      assert ThreadOk(w.env, u, w.threads[u]);
    }
  }

  /** Adding a client leaves lists and timers alone. */
  lemma NewClientKeeps(w: World, clients: map<Sid, Client>)
    requires ListsOk(w.pool.lists, w.env.clients) && TimersOk(w.pool.table, w.pool.timers, w.env.clients)
    requires forall s :: s in w.env.clients ==> SafeKey(clients, s) == SafeKey(w.env.clients, s)
    ensures ListsOk(w.pool.lists, clients) && TimersOk(w.pool.table, w.pool.timers, clients)
  {
    forall k, s | k in w.pool.lists && s in w.pool.lists[k]
      ensures SafeKey(clients, s) == Some(k)
    {
      assert SafeKey(w.env.clients, s) == Some(k);
    }
  }

  lemma ShakeShared(w: World, t: Tid, k: Key, client: Option<Sid>)
    requires SharedOk(w) && t in w.threads && w.threads[t] == Handshaking(k)
    requires client.Some? ==> client.value !in w.env.clients
    ensures SharedOk(ApplyShake(w, t, k, client))
  {
    ShakeLinks(w, t, k, client);
    NewClientKeeps(w, ApplyShake(w, t, k, client).env.clients);
  }

  lemma ShakeClient(w: World, t: Tid, k: Key, client: Option<Sid>, s: Sid)
    requires LinksOk(w.env, w.threads) && ListsOk(w.pool.lists, w.env.clients)
    requires t in w.threads && w.threads[t] == Handshaking(k)
    requires client.Some? ==> client.value !in w.env.clients
    requires w.owed.idle <= w.env.clients.Keys
    requires s in ApplyShake(w, t, k, client).env.clients && (s in w.env.clients ==> ClientOk(w, s))
    ensures ClientOk(ApplyShake(w, t, k, client), s)
  {
    var w' := ApplyShake(w, t, k, client);
    assert ThreadOk(w.env, t, w.threads[t]);
    if s in w.env.clients {
      SameClient(w, w', s);
    } else {
      assert k in w.pool.lists && s in w.pool.lists[k] ==> SafeKey(w.env.clients, s) == Some(k);
      assert StageOf(w'.env.owner, w'.threads, s) == Fresh;
    }
  }

  lemma ShakeKeeps(w: World, t: Tid, k: Key, client: Option<Sid>)
    requires Inv(w) && t in w.threads && w.threads[t] == Handshaking(k)
    requires client.Some? ==> client.value !in w.env.clients
    ensures Inv(ApplyShake(w, t, k, client))
  {
    ShakeShared(w, t, k, client);
    forall s | s in ApplyShake(w, t, k, client).env.clients
      ensures ClientOk(ApplyShake(w, t, k, client), s)
    {
      ShakeClient(w, t, k, client, s);
    }
  }

  lemma FinishLinks(env: Env, threads: map<Tid, Pc>, t: Tid, pc: Pc, listed: bool)
    requires LinksOk(env, threads) && t in threads && threads[t] == pc && (pc.Connected? || pc.Broken?)
    ensures LinksOk(FinishEnv(env, pc, listed), FinishThreads(threads, t, pc, listed))
  {
    var env', threads' := FinishEnv(env, pc, listed), FinishThreads(threads, t, pc, listed);
    assert ThreadOk(env, t, pc);
    forall u | u in threads'
      ensures ThreadOk(env', u, threads'[u])
    {
      assert ThreadOk(env, u, threads[u]);
    }
  }

  lemma FinishShared(w: World, t: Tid, pc: Pc)
    requires SharedOk(w) && t in w.threads && w.threads[t] == pc && (pc.Connected? || pc.Broken?)
    requires pc.Connected? ==> pc.s in w.env.clients && ClientOk(w, pc.s)
    ensures SharedOk(ApplyFinish(w, t, pc))
  {
    FinishLinks(w.env, w.threads, t, pc, pc.Connected? && !w.pool.closed);
    assert ThreadOk(w.env, t, pc);
    var w' := ApplyFinish(w, t, pc);
    if pc.Connected? && !w.pool.closed {
      assert StageOf(w.env.owner, w.threads, pc.s) == Fresh;
      assert pc.s !in List(w.pool.lists, pc.k);
      assert Distinct(w'.pool.lists[pc.k]);
    }
  }

  lemma FinishOwn(w: World, t: Tid, k: Key, s: Sid)
    requires LinksOk(w.env, w.threads) && t in w.threads && w.threads[t] == Connected(k, s)
    requires s in w.env.clients && ClientOk(w, s)
    ensures ClientOk(ApplyFinish(w, t, Connected(k, s)), s)
  {
    assert ThreadOk(w.env, t, w.threads[t]);
    assert StageOf(w.env.owner, w.threads, s) == Fresh;
    var w' := ApplyFinish(w, t, Connected(k, s));
    if w.pool.closed {
      assert StageOf(w'.env.owner, w'.threads, s) == Discard;
    } else {
      assert StageOf(w'.env.owner, w'.threads, s) == Hook;
      assert w'.pool.lists[k] == List(w.pool.lists, k) + [s];
    }
  }

  lemma FinishOther(w: World, t: Tid, pc: Pc, s: Sid)
    requires LinksOk(w.env, w.threads) && t in w.threads && w.threads[t] == pc && (pc.Connected? || pc.Broken?)
    requires s in w.env.clients && ClientOk(w, s) && OwnedBy(pc) != Some(s)
    ensures ClientOk(ApplyFinish(w, t, pc), s)
  {
    SameClient(w, ApplyFinish(w, t, pc), s);
  }

  lemma FinishKeeps(w: World, t: Tid, pc: Pc)
    requires Inv(w) && t in w.threads && w.threads[t] == pc && (pc.Connected? || pc.Broken?)
    ensures Inv(ApplyFinish(w, t, pc))
  {
    assert ThreadOk(w.env, t, pc);
    FinishShared(w, t, pc);
    forall s | s in ApplyFinish(w, t, pc).env.clients
      ensures ClientOk(ApplyFinish(w, t, pc), s)
    {
      if OwnedBy(pc) == Some(s) {
        FinishOwn(w, t, pc.k, s);
      } else {
        FinishOther(w, t, pc, s);
      }
    }
  }

  lemma SettleShared(w: World, t: Tid, pc: Pc)
    requires SharedOk(w) && t in w.threads && w.threads[t] == pc && (pc.Hooking? || pc.Discarding?)
    requires pc.s in w.env.clients
    ensures SharedOk(ApplySettle(w, t, pc))
  {
    var w' := ApplySettle(w, t, pc);
    assert forall s :: SafeKey(w'.env.clients, s) == SafeKey(w.env.clients, s);
    assert ThreadOk(w.env, t, pc);
    forall u | u in w'.threads
      ensures ThreadOk(w'.env, u, w'.threads[u])
    {
      assert ThreadOk(w.env, u, w.threads[u]);
    }
  }

  lemma SettleClient(w: World, t: Tid, pc: Pc, s: Sid)
    requires LinksOk(w.env, w.threads) && t in w.threads && w.threads[t] == pc && (pc.Hooking? || pc.Discarding?)
    requires pc.s in w.env.clients && s in w.env.clients && ClientOk(w, s)
    ensures ClientOk(ApplySettle(w, t, pc), s)
  {
    var w' := ApplySettle(w, t, pc);
    assert ThreadOk(w.env, t, pc);
    if s == pc.s {
      assert StageOf(w'.env.owner, w'.threads, s) == Free;
      assert StageOf(w.env.owner, w.threads, s) == (if pc.Hooking? then Hook else Discard);
    } else {
      SameClient(w, w', s);
    }
  }

  lemma SettleKeeps(w: World, t: Tid, pc: Pc)
    requires Inv(w) && t in w.threads && w.threads[t] == pc && (pc.Hooking? || pc.Discarding?)
    requires pc.s in w.env.clients
    ensures Inv(ApplySettle(w, t, pc))
  {
    SettleShared(w, t, pc);
    forall s | s in ApplySettle(w, t, pc).env.clients
      ensures ClientOk(ApplySettle(w, t, pc), s)
    {
      SettleClient(w, t, pc, s);
    }
  }

  // Lists and timers

  lemma ShrinkLists(lists: map<Key, seq<Sid>>, clients: map<Sid, Client>, inflight: set<Key>, k: Key, drop: set<Sid>)
    requires ListsOk(lists, clients) && PortsOk(lists, inflight)
    ensures var lists' := SetList(lists, k, Without(List(lists, k), drop));
            && ListsOk(lists', clients) && PortsOk(lists', inflight)
            && lists'.Keys <= lists.Keys
            && forall k' :: List(lists', k') == if k' == k then Without(List(lists, k), drop) else List(lists, k')
  {
    WithoutKeeps(List(lists, k), drop);
  }

  /** Stopping the timers of some sessions leaves those of the others alone. */
  lemma StopEachKeeps(table: map<Sid, Managed>, timers: map<TimerId, Timer>, clients: map<Sid, Client>, these: set<Sid>)
    requires TimersOk(table, timers, clients)
    ensures var timers' := StopEach(timers, table, these);
            && TimersOk(table, timers', clients)
            && forall s :: s in table && s !in these && table[s].timer.Some? ==>
                 timers'[table[s].timer.value] == timers[table[s].timer.value]
  {
  }

  lemma StopKeeps(table: map<Sid, Managed>, timers: map<TimerId, Timer>, clients: map<Sid, Client>, s: Sid)
    requires TimersOk(table, timers, clients)
    ensures var timers' := Stop(timers, TimerOf(table, s));
            && TimersOk(table, timers', clients)
            && forall s' :: s' in table && s' != s && table[s'].timer.Some? ==>
                 timers'[table[s'].timer.value] == timers[table[s'].timer.value]
  {
  }

  lemma CompactShared(w: World, k: Key, dead: set<Sid>)
    requires SharedOk(w)
    ensures SharedOk(w.(pool := Compact(w.pool, k, dead)))
  {
    ShrinkLists(w.pool.lists, w.env.clients, w.pool.inflight, k, dead);
    var l := List(w.pool.lists, k);
    StopEachKeeps(w.pool.table, w.pool.timers, w.env.clients, set s | s in l && s in dead);
  }

  lemma CompactClient(w: World, k: Key, dead: set<Sid>, s: Sid)
    requires ListsOk(w.pool.lists, w.env.clients) && TimersOk(w.pool.table, w.pool.timers, w.env.clients)
    requires PortsOk(w.pool.lists, w.pool.inflight)
    requires s in w.env.clients && ClientOk(w, s) && (s in dead ==> w.env.clients[s].closed)
    ensures ClientOk(w.(pool := Compact(w.pool, k, dead)), s)
  {
    ShrinkLists(w.pool.lists, w.env.clients, w.pool.inflight, k, dead);
    var l := List(w.pool.lists, k);
    StopEachKeeps(w.pool.table, w.pool.timers, w.env.clients, set s | s in l && s in dead);
    if !(s in l && s in dead) {
      SameClient(w, w.(pool := Compact(w.pool, k, dead)), s);
    } else {
      assert SafeKey(w.env.clients, s) == Some(k);
      assert !Listed(w.(pool := Compact(w.pool, k, dead)), s);
    }
  }

  lemma CompactKeeps(w: World, k: Key, dead: set<Sid>)
    requires Inv(w) && forall s :: s in dead ==> s in w.env.clients && w.env.clients[s].closed
    ensures Inv(w.(pool := Compact(w.pool, k, dead)))
  {
    CompactShared(w, k, dead);
    forall s | s in w.env.clients
      ensures ClientOk(w.(pool := Compact(w.pool, k, dead)), s)
    {
      CompactClient(w, k, dead, s);
    }
  }

  /** Counting holders differently leaves the Acquire stages alone. */
  lemma HoldersKeepLinks(env: Env, threads: map<Tid, Pc>, holders: map<Sid, nat>)
    requires LinksOk(env, threads)
    ensures LinksOk(env.(holders := holders), threads)
  {
  }

  function Reserved(w: World, s: Sid): World
    requires s in w.pool.table
  {
    w.(pool := Reserve(w.pool, s), env := w.env.(holders := w.env.holders[s := Holders(w.env, s) + 1]))
  }

  lemma ReserveClient(w: World, s: Sid, s': Sid)
    requires TimersOk(w.pool.table, w.pool.timers, w.env.clients)
    requires s in w.pool.table && w.pool.table[s].refCount < w.pool.table[s].maxRealms
    requires s in w.env.clients && Listed(w, s)
    requires s' in w.env.clients && ClientOk(w, s')
    ensures ClientOk(Reserved(w, s), s')
  {
  }

  lemma ReserveShared(w: World, s: Sid)
    requires SharedOk(w) && s in w.pool.table
    ensures SharedOk(Reserved(w, s))
  {
    StopKeeps(w.pool.table, w.pool.timers, w.env.clients, s);
    HoldersKeepLinks(w.env, w.threads, Reserved(w, s).env.holders);
  }

  lemma ReserveKeeps(w: World, k: Key, s: Sid)
    requires Inv(w) && s in List(w.pool.lists, k) && s in w.pool.table
    requires w.pool.table[s].refCount < w.pool.table[s].maxRealms
    ensures Inv(Reserved(w, s))
  {
    assert SafeKey(w.env.clients, s) == Some(k);
    ReserveShared(w, s);
    forall s' | s' in w.env.clients
      ensures ClientOk(Reserved(w, s), s')
    {
      ReserveClient(w, s, s');
    }
  }

  function TakenOff(w: World, t: Tid, k: Key): World {
    w.(pool := w.pool.(inflight := w.pool.inflight + {k}), threads := w.threads[t := Handshaking(k)],
       env := w.env.(flight := w.env.flight[k := t]))
  }

  lemma FlightLinks(env: Env, threads: map<Tid, Pc>, t: Tid, k: Key)
    requires LinksOk(env, threads) && t !in threads && k !in env.flight && k.maxRealms > 0
    ensures LinksOk(env.(flight := env.flight[k := t]), threads[t := Handshaking(k)])
  {
    var env', threads' := env.(flight := env.flight[k := t]), threads[t := Handshaking(k)];
    forall u | u in threads'
      ensures ThreadOk(env', u, threads'[u])
    {
      assert u != t ==> ThreadOk(env, u, threads[u]);
    }
  }

  lemma FlightClient(w: World, t: Tid, k: Key, s: Sid)
    requires LinksOk(w.env, w.threads) && t !in w.threads && s in w.env.clients && ClientOk(w, s)
    ensures ClientOk(TakenOff(w, t, k), s)
  {
  }

  lemma FlightKeeps(w: World, t: Tid, k: Key)
    requires Inv(w) && t !in w.threads && k !in w.pool.inflight && k.maxRealms > 0
    requires k.p2pPort != 0 ==> k !in w.pool.lists
    ensures Inv(TakenOff(w, t, k))
  {
    FlightLinks(w.env, w.threads, t, k);
    forall s | s in w.env.clients
      ensures ClientOk(TakenOff(w, t, k), s)
    {
      FlightClient(w, t, k, s);
    }
  }

  /** Acquire's first section is a compaction followed by at most one reservation or take-off. */
  lemma EnterForm(w: World, t: Tid, k: Key, dead: set<Sid>, retired: set<Sid>)
    ensures var w1 := w.(pool := Compact(w.pool, k, dead));
            match Enter(w.pool, k, dead, retired).1
            case Refused => w.pool.closed && ApplyEnter(w, t, k, dead, retired) == w
            case Hit(s) =>
              && s in List(w1.pool.lists, k) && Available(w1.pool.table, retired, s)
              && ApplyEnter(w, t, k, dead, retired) == Reserved(w1, s)
            case Handshake =>
              && k !in w1.pool.inflight && (k.p2pPort != 0 ==> List(w1.pool.lists, k) == [])
              && ApplyEnter(w, t, k, dead, retired) == TakenOff(w1, t, k)
            case _ => ApplyEnter(w, t, k, dead, retired) == w1
  {
  }

  lemma EnterKeeps(w: World, t: Tid, k: Key, dead: set<Sid>, retired: set<Sid>)
    requires Inv(w) && t !in w.threads && k.maxRealms > 0 && Seen(w.env, dead, retired)
    ensures Inv(ApplyEnter(w, t, k, dead, retired))
  {
    EnterForm(w, t, k, dead, retired);
    var w1 := w.(pool := Compact(w.pool, k, dead));
    CompactKeeps(w, k, dead);
    match Enter(w.pool, k, dead, retired).1
    case Hit(s) => ReserveKeeps(w1, k, s);
    case Handshake => FlightKeeps(w1, t, k);
    case _ =>
  }

  // Forget, Release, idle expiry, CloseAll

  lemma ForgetShared(w: World, k: Key, s: Sid)
    requires SharedOk(w)
    ensures SharedOk(Forgotten(w, k, s))
  {
    ShrinkLists(w.pool.lists, w.env.clients, w.pool.inflight, k, {s});
    StopKeeps(w.pool.table, w.pool.timers, w.env.clients, s);
  }

  lemma ForgetClient(w: World, k: Key, s: Sid, s': Sid)
    requires ListsOk(w.pool.lists, w.env.clients) && TimersOk(w.pool.table, w.pool.timers, w.env.clients)
    requires PortsOk(w.pool.lists, w.pool.inflight) && SafeKey(w.env.clients, s) == Some(k)
    requires s' in w.env.clients && ClientOk(w, s') && (s' == s ==> w.env.clients[s].closed)
    ensures ClientOk(Forgotten(w, k, s), s')
    ensures s' == s ==> !Listed(Forgotten(w, k, s), s)
  {
    ShrinkLists(w.pool.lists, w.env.clients, w.pool.inflight, k, {s});
    StopKeeps(w.pool.table, w.pool.timers, w.env.clients, s);
    if s' != s {
      SameClient(w, Forgotten(w, k, s), s');
    }
  }

  lemma ForgottenKeeps(w: World, k: Key, s: Sid)
    requires Inv(w) && s in w.env.clients && w.env.clients[s].closed && w.env.clients[s].key == k
    ensures Inv(Forgotten(w, k, s)) && !Listed(Forgotten(w, k, s), s)
  {
    ForgetShared(w, k, s);
    forall s' | s' in w.env.clients
      ensures ClientOk(Forgotten(w, k, s), s')
    {
      ForgetClient(w, k, s, s');
    }
    ForgetClient(w, k, s, s);
  }

  lemma HookRan(w: World, s: Sid, c: Client)
    requires Inv(w) && s in w.env.clients && w.env.clients[s] == c && c.hook.due > 0 && !Listed(w, s)
    ensures Inv(WithClient(w, s, HookDone(c)))
  {
    assert ClientOk(w, s);
    ReplaceKeeps(w, s, HookDone(c));
  }

  lemma HookKeeps(w: World, s: Sid, c: Client) returns (w': World)
    requires Inv(w) && s in w.env.clients && w.env.clients[s] == c && c.hook.due > 0 && c.closed
    ensures Inv(w') && w' == WithClient(Forgotten(w, c.key, s), s, HookDone(c))
  {
    ForgottenKeeps(w, c.key, s);
    HookRan(Forgotten(w, c.key, s), s, c);
    w' := WithClient(Forgotten(w, c.key, s), s, HookDone(c));
  }

  lemma FireKeeps(w: World, timer: TimerId)
    requires Inv(w) && Enabled(w, Fire(timer))
    ensures Inv(Apply(w, Fire(timer)))
  {
    var w' := Apply(w, Fire(timer));
    forall s | s in w'.env.clients
      ensures ClientOk(w', s)
    {
      assert ClientOk(w, s);
    }
  }

  lemma ShutdownKeeps(w: World)
    requires Inv(w)
    ensures Inv(Apply(w, Shutdown))
  {
    var w' := Apply(w, Shutdown);
    StopEachKeeps(w.pool.table, w.pool.timers, w.env.clients, AllListed(w.pool));
    forall s | s in AllListed(w.pool)
      ensures s in w.env.clients
    {
      var k :| k in w.pool.lists && s in w.pool.lists[k];
      assert SafeKey(w.env.clients, s) == Some(k);
    }
    forall s | s in w'.env.clients
      ensures ClientOk(w', s)
    {
      assert ClientOk(w, s);
      assert Listed(w, s) ==> s in AllListed(w.pool);
    }
  }

  // Idle expiry

  function RanTimer(w: World, t: TimerId): World
    requires t in w.pool.timers
  {
    w.(pool := w.pool.(timers := w.pool.timers[t := w.pool.timers[t].(state := Ran)]))
  }

  /** Out of the list, with a Close owed. */
  function Expired(w: World, k: Key, s: Sid): World {
    w.(pool := Unlist(w.pool, k, s), owed := w.owed.(idle := w.owed.idle + {s}))
  }

  lemma IdleForm(w: World, t: TimerId)
    requires t in w.pool.timers
    ensures var timer := w.pool.timers[t];
            ApplyIdle(w, t) ==
            if timer.sid in List(w.pool.lists, timer.key) && timer.sid in w.pool.table
               && w.pool.table[timer.sid].refCount <= 0
            then Expired(RanTimer(w, t), timer.key, timer.sid)
            else RanTimer(w, t)
  {
  }

  lemma ExpiredShared(w: World, k: Key, s: Sid)
    requires SharedOk(w) && s in w.env.clients
    ensures SharedOk(Expired(w, k, s))
  {
    ShrinkLists(w.pool.lists, w.env.clients, w.pool.inflight, k, {s});
  }

  lemma ExpiredOther(w: World, k: Key, s: Sid, s': Sid)
    requires ListsOk(w.pool.lists, w.env.clients) && PortsOk(w.pool.lists, w.pool.inflight)
    requires s' != s && s' in w.env.clients && ClientOk(w, s')
    ensures ClientOk(Expired(w, k, s), s')
  {
  }

  /** A listed session that nobody holds may go. */
  lemma ExpiredOwn(w: World, k: Key, s: Sid)
    requires ListsOk(w.pool.lists, w.env.clients) && PortsOk(w.pool.lists, w.pool.inflight)
    requires s in w.env.clients && w.env.clients[s].key == k
    requires PlaceOk(w.env.clients[s], true, 0, StageOf(w.env.owner, w.threads, s), false, s in w.owed.shutdown)
    requires Holders(w.env, s) == 0
    ensures ClientOk(Expired(w, k, s), s)
  {
  }

  lemma RanShared(w: World, t: TimerId)
    requires SharedOk(w) && t in w.pool.timers
    ensures SharedOk(RanTimer(w, t))
  {
  }

  lemma RanClient(w: World, t: TimerId, s: Sid)
    requires TimersOk(w.pool.table, w.pool.timers, w.env.clients) && t in w.pool.timers
    requires s in w.env.clients && ClientOk(w, s)
    requires Listed(w, s) && w.pool.timers[t].sid == s ==> Holders(w.env, s) > 0
    ensures ClientOk(RanTimer(w, t), s)
  {
  }

  lemma IdleIdleKeeps(w: World, t: TimerId, k: Key, s: Sid)
    requires Inv(w) && t in w.pool.timers && w.pool.timers[t].sid == s && w.pool.timers[t].key == k
    requires s in List(w.pool.lists, k) && s in w.pool.table && w.pool.table[s].refCount <= 0
    ensures Inv(Expired(RanTimer(w, t), k, s))
  {
    assert SafeKey(w.env.clients, s) == Some(k);
    assert ClientOk(w, s);
    var w1 := RanTimer(w, t);
    RanShared(w, t);
    ExpiredShared(w1, k, s);
    ExpiredOwn(w1, k, s);
    forall s' | s' in w.env.clients && s' != s
      ensures ClientOk(Expired(w1, k, s), s')
    {
      RanClient(w, t, s');
      ExpiredOther(w1, k, s, s');
    }
  }

  lemma IdleBusyKeeps(w: World, t: TimerId)
    requires Inv(w) && t in w.pool.timers
    requires var timer := w.pool.timers[t];
             !(timer.sid in List(w.pool.lists, timer.key) && timer.sid in w.pool.table
               && w.pool.table[timer.sid].refCount <= 0)
    ensures Inv(RanTimer(w, t))
  {
    RanShared(w, t);
    forall s | s in w.env.clients
      ensures ClientOk(RanTimer(w, t), s)
    {
      assert ClientOk(w, s);
      assert SafeKey(w.env.clients, w.pool.timers[t].sid) == Some(w.pool.timers[t].key);
      RanClient(w, t, s);
    }
  }

  lemma IdleKeeps(w: World, t: TimerId)
    requires Inv(w) && t in w.pool.timers
    ensures Inv(ApplyIdle(w, t))
  {
    IdleForm(w, t);
    var timer := w.pool.timers[t];
    if timer.sid in List(w.pool.lists, timer.key) && timer.sid in w.pool.table
       && w.pool.table[timer.sid].refCount <= 0
    {
      IdleIdleKeeps(w, t, timer.key, timer.sid);
    } else {
      IdleBusyKeeps(w, t);
    }
  }

  // Release

  /** One reservation less. */
  function Dropped(w: World, s: Sid): World
    requires s in w.env.holders && w.env.holders[s] > 0
  {
    w.(env := w.env.(holders := w.env.holders[s := w.env.holders[s] - 1]))
  }

  function Recounted(w: World, s: Sid, m: Managed, timers: map<TimerId, Timer>): World {
    w.(pool := w.pool.(table := w.pool.table[s := m], timers := timers))
  }

  lemma ReleaseForm(w: World, s: Sid, nt: TimerId)
    requires s in w.env.clients && s in w.env.holders && w.env.holders[s] > 0
    ensures var c := w.env.clients[s];
            var w1 := Dropped(w, s);
            ApplyRelease(w, s, nt) ==
            if !(s in List(w.pool.lists, c.key) && s in w.pool.table) then w1
            else
              var m := w.pool.table[s];
              if m.refCount - 1 > 0 then Recounted(w1, s, m.(refCount := m.refCount - 1), w.pool.timers)
              else if c.retired || c.closed then
                Expired(Recounted(w1, s, m.(refCount := 0, timer := None), Stop(w.pool.timers, m.timer)), c.key, s)
              else
                Recounted(w1, s, m.(refCount := 0, timer := Some(nt)),
                          Stop(w.pool.timers, m.timer)[nt := Timer(Armed, c.key, s)])
  {
  }

  lemma DroppedShared(w: World, s: Sid)
    requires SharedOk(w) && s in w.env.holders && w.env.holders[s] > 0
    ensures SharedOk(Dropped(w, s))
  {
  }

  lemma DroppedOther(w: World, s: Sid, s': Sid)
    requires s in w.env.holders && w.env.holders[s] > 0
    requires s' != s && s' in w.env.clients && ClientOk(w, s')
    ensures ClientOk(Dropped(w, s), s')
  {
  }

  /** Counting session s anew concerns nobody else. */
  lemma RecountedOther(w: World, s: Sid, m: Managed, timers: map<TimerId, Timer>, s': Sid)
    requires s' != s && s' in w.env.clients && ClientOk(w, s')
    requires s' in w.pool.table ==> SameTimer(w.pool.table[s'], w.pool.timers, timers)
    ensures ClientOk(Recounted(w, s, m, timers), s')
  {
  }

  lemma RecountedShared(w: World, s: Sid, m: Managed, timers: map<TimerId, Timer>)
    requires SharedOk(w)
    requires TimersOk(w.pool.table[s := m], timers, w.env.clients)
    ensures SharedOk(Recounted(w, s, m, timers))
  {
  }

  /** The old timer is stopped and the new one, if any, is the session's own. */
  lemma NewTimerOk(w: World, s: Sid, nt: TimerId, k: Key)
    requires TimersOk(w.pool.table, w.pool.timers, w.env.clients) && s in w.pool.table && nt !in w.pool.timers
    requires SafeKey(w.env.clients, s) == Some(k)
    ensures var m, stopped := w.pool.table[s], Stop(w.pool.timers, w.pool.table[s].timer);
            && TimersOk(w.pool.table[s := m.(refCount := 0, timer := None)], stopped, w.env.clients)
            && TimersOk(w.pool.table[s := m.(refCount := 0, timer := Some(nt))], stopped[nt := Timer(Armed, k, s)],
                        w.env.clients)
            && (forall s' :: s' in w.pool.table && s' != s ==>
                  && SameTimer(w.pool.table[s'], w.pool.timers, stopped)
                  && SameTimer(w.pool.table[s'], w.pool.timers, stopped[nt := Timer(Armed, k, s)]))
  {
  }

  lemma ReleaseSharedOwn(w: World, s: Sid)
    requires s in w.env.clients && ClientOk(w, s) && s in w.env.holders && Listed(w, s)
    requires LinksOk(w.env, w.threads)
    requires w.env.holders[s] > (if s in w.env.owner then 1 else 0) && w.pool.table[s].refCount - 1 > 0
    ensures var m := w.pool.table[s];
            ClientOk(Recounted(Dropped(w, s), s, m.(refCount := m.refCount - 1), w.pool.timers), s)
  {
  }

  lemma ReleaseLastOwn(w: World, k: Key, s: Sid, nt: TimerId)
    requires s in w.env.clients && ClientOk(w, s) && s in w.env.holders && Listed(w, s)
    requires LinksOk(w.env, w.threads)
    requires w.env.holders[s] > (if s in w.env.owner then 1 else 0) && w.pool.table[s].refCount - 1 <= 0
    ensures var m := w.pool.table[s];
            ClientOk(Recounted(Dropped(w, s), s, m.(refCount := 0, timer := Some(nt)),
                               Stop(w.pool.timers, m.timer)[nt := Timer(Armed, k, s)]), s)
  {
  }

  lemma ReleaseUnlistedKeeps(w: World, s: Sid)
    requires Inv(w) && s in w.env.clients && s in w.env.holders
    requires w.env.holders[s] > (if s in w.env.owner then 1 else 0) && !(Listed(w, s) && s in w.pool.table)
    ensures Inv(Dropped(w, s))
  {
    DroppedShared(w, s);
    assert ClientOk(w, s);
    forall s' | s' in w.env.clients && s' != s
      ensures ClientOk(Dropped(w, s), s')
    {
      DroppedOther(w, s, s');
    }
  }

  lemma ReleaseSharedKeeps(w: World, s: Sid, m: Managed)
    requires Inv(w) && s in w.env.clients && s in w.env.holders && Listed(w, s) && s in w.pool.table
    requires w.env.holders[s] > (if s in w.env.owner then 1 else 0) && w.pool.table[s].refCount - 1 > 0
    requires m == w.pool.table[s].(refCount := w.pool.table[s].refCount - 1)
    ensures Inv(Recounted(Dropped(w, s), s, m, w.pool.timers))
  {
    var w1 := Dropped(w, s);
    ReleaseSharedOwn(w, s);
    DroppedShared(w, s);
    RecountedShared(w1, s, m, w.pool.timers);
    forall s' | s' in w.env.clients && s' != s
      ensures ClientOk(Recounted(w1, s, m, w.pool.timers), s')
    {
      DroppedOther(w, s, s');
      RecountedOther(w1, s, m, w.pool.timers, s');
    }
  }

  lemma ReleaseLastKeeps(w: World, k: Key, s: Sid, nt: TimerId, m: Managed, timers: map<TimerId, Timer>)
    requires Inv(w) && s in w.env.clients && w.env.clients[s].key == k
    requires s in w.env.holders && Listed(w, s) && s in w.pool.table && nt !in w.pool.timers
    requires w.env.holders[s] > (if s in w.env.owner then 1 else 0) && w.pool.table[s].refCount - 1 <= 0
    requires m == w.pool.table[s].(refCount := 0, timer := Some(nt))
    requires timers == Stop(w.pool.timers, w.pool.table[s].timer)[nt := Timer(Armed, k, s)]
    ensures Inv(Recounted(Dropped(w, s), s, m, timers))
  {
    var w1 := Dropped(w, s);
    ReleaseLastOwn(w, k, s, nt);
    DroppedShared(w, s);
    NewTimerOk(w, s, nt, k);
    RecountedShared(w1, s, m, timers);
    forall s' | s' in w.env.clients && s' != s
      ensures ClientOk(Recounted(w1, s, m, timers), s')
    {
      DroppedOther(w, s, s');
      RecountedOther(w1, s, m, timers, s');
    }
  }

  lemma ReleaseRetiredKeeps(w: World, k: Key, s: Sid, nt: TimerId)
    requires Inv(w) && s in w.env.clients && w.env.clients[s].key == k
    requires s in w.env.holders && Listed(w, s) && s in w.pool.table && nt !in w.pool.timers
    requires w.env.holders[s] > (if s in w.env.owner then 1 else 0) && w.pool.table[s].refCount - 1 <= 0
    ensures var m := w.pool.table[s];
            Inv(Expired(Recounted(Dropped(w, s), s, m.(refCount := 0, timer := None), Stop(w.pool.timers, m.timer)), k, s))
  {
    var m := w.pool.table[s].(refCount := 0, timer := None);
    var timers := Stop(w.pool.timers, w.pool.table[s].timer);
    var w1 := Dropped(w, s);
    var w2 := Recounted(w1, s, m, timers);
    assert ClientOk(w, s);
    DroppedShared(w, s);
    NewTimerOk(w, s, nt, k);
    RecountedShared(w1, s, m, timers);
    ExpiredShared(w2, k, s);
    ExpiredOwn(w2, k, s);
    forall s' | s' in w.env.clients && s' != s
      ensures ClientOk(Expired(w2, k, s), s')
    {
      DroppedOther(w, s, s');
      RecountedOther(w1, s, m, timers, s');
      ExpiredOther(w2, k, s, s');
    }
  }

  lemma ReleaseKeeps(w: World, s: Sid, nt: TimerId)
    requires Inv(w) && Enabled(w, ReleaseOne(s, nt))
    ensures Inv(ApplyRelease(w, s, nt))
  {
    ReleaseForm(w, s, nt);
    var c := w.env.clients[s];
    if !(Listed(w, s) && s in w.pool.table) {
      ReleaseUnlistedKeeps(w, s);
    } else if w.pool.table[s].refCount - 1 > 0 {
      ReleaseSharedKeeps(w, s, w.pool.table[s].(refCount := w.pool.table[s].refCount - 1));
    } else if c.retired || c.closed {
      ReleaseRetiredKeeps(w, c.key, s, nt);
    } else {
      var m := w.pool.table[s];
      ReleaseLastKeeps(w, c.key, s, nt, m.(refCount := 0, timer := Some(nt)),
                       Stop(w.pool.timers, m.timer)[nt := Timer(Armed, c.key, s)]);
    }
  }

  // Runs

  lemma EventKeeps(w: World, e: Event)
    requires Inv(w) && Enabled(w, e)
    ensures Inv(Apply(w, e))
  {
    match e
    case EnterAcquire(t, k, dead, retired) => EnterKeeps(w, t, k, dead, retired);
    case Shake(t, client) => ShakeKeeps(w, t, w.threads[t].k, client);
    case FinishAcquire(t) => FinishKeeps(w, t, w.threads[t]);
    case Settle(t) => SettleKeeps(w, t, w.threads[t]);
    case Die(s) => DieKeeps(w, s);
    case Retire(s) => RetireKeeps(w, s);
    case RunHook(s) => RunHookKeeps(w, s);
    case ReleaseOne(s, newTimer) => ReleaseKeeps(w, s, newTimer);
    case Fire(timer) => FireKeeps(w, timer);
    case Idle(timer) => IdleKeeps(w, timer);
    case Pay(s) => PayKeeps(w, s);
    case Shutdown => ShutdownKeeps(w);
  }

  lemma RunHookKeeps(w: World, s: Sid)
    requires Inv(w) && s in w.env.clients && w.env.clients[s].hook.due > 0
    ensures Inv(ApplyHook(w, s))
  {
    DueIsClosed(w, s);
    var w' := HookKeeps(w, s, w.env.clients[s]);
    assert ApplyHook(w, s) == w';
  }

  lemma DueIsClosed(w: World, s: Sid)
    requires Inv(w) && s in w.env.clients && w.env.clients[s].hook.due > 0
    ensures w.env.clients[s].closed
  {
  }

  lemma {:induction false} RunKeeps(w: World, es: seq<Event>)
    requires Inv(w) && Run(w, es)
    ensures Inv(After(w, es))
    decreases |es|
  {
    if es != [] {
      EventKeeps(w, es[0]);
      RunKeeps(Apply(w, es[0]), es[1..]);
    }
  }

  lemma ReachableInv(w: World)
    requires Reachable(w)
    ensures Inv(w)
  {
    var es :| Run(START, es) && After(START, es) == w;
    RunKeeps(START, es);
  }

  // What every run guarantees

  /**
   * Reservation accounting: a listed session's refCount is the number of its outstanding
   * holders and never exceeds the capacity of its key.
   */
  lemma ReservationsAreCounted(w: World, k: Key, s: Sid)
    requires Reachable(w) && k in w.pool.lists && s in w.pool.lists[k]
    ensures s in w.env.clients && w.env.clients[s].key == k
    ensures s in w.pool.table && 0 <= w.pool.table[s].refCount == Holders(w.env, s) <= k.maxRealms
  {
    ReachableInv(w);
    assert SafeKey(w.env.clients, s) == Some(k);
    assert ClientOk(w, s);
  }

  /**
   * No forgotten idle tunnel: a listed session nobody holds has an armed idle timer or a
   * fired callback still to run, and no key maps to an empty list.
   */
  lemma NoForgottenIdle(w: World, k: Key, s: Sid)
    requires Reachable(w) && k in w.pool.lists
    ensures w.pool.lists[k] != [] && Distinct(w.pool.lists[k])
    ensures s in w.pool.lists[k] && Holders(w.env, s) == 0 ==>
              && s in w.pool.table && w.pool.table[s].timer.Some?
              && var t := w.pool.table[s].timer.value;
                 && t in w.pool.timers && w.pool.timers[t].sid == s && w.pool.timers[t].key == k
                 && (w.pool.timers[t].state == Armed || w.pool.timers[t].state == Fired)
  {
    ReachableInv(w);
    if s in w.pool.lists[k] {
      assert SafeKey(w.env.clients, s) == Some(k);
      assert ClientOk(w, s);
    }
  }

  /** No tunnel leak: every client ever connected is closed, listed, owed a Close, or in an Acquire. */
  lemma NoLeak(w: World, s: Sid)
    requires Reachable(w) && s in w.env.clients
    ensures w.env.clients[s].closed || Listed(w, s) || s in w.owed.idle + w.owed.shutdown
         || (s in w.env.owner && w.env.owner[s] in w.threads && OwnedBy(w.threads[w.env.owner[s]]) == Some(s))
  {
    ReachableInv(w);
    assert ClientOk(w, s);
  }

  /**
   * However SetOnClose races with Close, and however often Close is called: the callback is
   * called at most once, exactly once when the tunnel is closed and SetOnClose was called, and
   * not otherwise; and while a closed tunnel is still listed, it has not run.
   */
  lemma CallbackRunsOnce(w: World, s: Sid)
    requires Reachable(w) && s in w.env.clients
    ensures var c := w.env.clients[s];
            && c.hook.due + c.hook.ran <= 1
            && (c.hook.due + c.hook.ran == 1 <==> c.closed && c.hook.given)
            && (Listed(w, s) && c.closed ==> c.hook.ran == 0 && (c.hook.due == 1 || s in w.env.owner))
  {
    ReachableInv(w);
    assert ClientOk(w, s);
  }

  /** Single flight: two Acquires between their sections for one key are the same one. */
  lemma SingleFlight(w: World, t: Tid, u: Tid)
    requires Reachable(w) && t in w.threads && u in w.threads
    requires FlightKey(w.threads[t]).Some? && FlightKey(w.threads[t]) == FlightKey(w.threads[u])
    ensures t == u
  {
    ReachableInv(w);
    assert ThreadOk(w.env, t, w.threads[t]) && ThreadOk(w.env, u, w.threads[u]);
  }

  /** A key with a fixed UDP port never lists two sessions, nor one while a handshake is under way. */
  lemma FixedPortIsExclusive(w: World, k: Key, t: Tid)
    requires Reachable(w) && k.p2pPort != 0
    ensures |List(w.pool.lists, k)| <= 1
    ensures t in w.threads && FlightKey(w.threads[t]) == Some(k) ==> List(w.pool.lists, k) == []
  {
    ReachableInv(w);
    if t in w.threads {
      assert ThreadOk(w.env, t, w.threads[t]);
    }
  }

  lemma ClosedStays(w: World, e: Event)
    requires Enabled(w, e) && w.pool.closed
    ensures Apply(w, e).pool.closed
  {
  }

  /** Shutdown is permanent: once CloseAll has run, nothing is ever listed again. */
  lemma {:induction false} NothingListedAfterShutdown(w: World, es: seq<Event>)
    requires Reachable(w) && w.pool.closed && Run(w, es)
    ensures After(w, es).pool.lists == map[]
  {
    ReachableInv(w);
    ShutdownRun(w, es);
  }

  lemma {:induction false} ShutdownRun(w: World, es: seq<Event>)
    requires Inv(w) && w.pool.closed && Run(w, es)
    ensures After(w, es).pool.lists == map[]
    decreases |es|
  {
    if es != [] {
      EventKeeps(w, es[0]);
      ClosedStays(w, es[0]);
      ShutdownRun(Apply(w, es[0]), es[1..]);
    }
  }

  /** Nobody holds the session, and nobody can come to hold it. */
  ghost predicate Gone(w: World, s: Sid) {
    s in w.env.clients && !Listed(w, s) && Holders(w.env, s) == 0 && s !in w.env.owner
  }

  lemma GoneEnter(w: World, t: Tid, k: Key, dead: set<Sid>, retired: set<Sid>, s: Sid)
    requires SharedOk(w) && Gone(w, s)
    ensures Gone(ApplyEnter(w, t, k, dead, retired), s)
  {
    EnterForm(w, t, k, dead, retired);
    ShrinkLists(w.pool.lists, w.env.clients, w.pool.inflight, k, dead);
    match Enter(w.pool, k, dead, retired).1
    case Hit(h) => assert SafeKey(w.env.clients, h) == Some(k);
    case _ =>
  }

  lemma GoneAcquire(w: World, e: Event, s: Sid)
    requires LinksOk(w.env, w.threads) && Enabled(w, e) && Gone(w, s) && (e.Shake? || e.FinishAcquire? || e.Settle?)
    ensures Gone(Apply(w, e), s)
  {
    assert ThreadOk(w.env, e.t, w.threads[e.t]);
  }

  lemma GoneHook(w: World, h: Sid, s: Sid)
    requires SharedOk(w) && h in w.env.clients && w.env.clients[h].hook.due > 0 && Gone(w, s)
    ensures Gone(ApplyHook(w, h), s)
  {
  }

  lemma GoneRelease(w: World, h: Sid, nt: TimerId, s: Sid)
    requires SharedOk(w) && h in w.env.clients && h in w.env.holders && w.env.holders[h] > 0 && Gone(w, s)
    ensures Gone(ApplyRelease(w, h, nt), s)
  {
    ReleaseForm(w, h, nt);
    ShrinkLists(w.pool.lists, w.env.clients, w.pool.inflight, w.env.clients[h].key, {h});
  }

  lemma GoneIdle(w: World, timer: TimerId, s: Sid)
    requires SharedOk(w) && timer in w.pool.timers && Gone(w, s)
    ensures Gone(ApplyIdle(w, timer), s)
  {
  }

  lemma GoneRest(w: World, e: Event, s: Sid)
    requires Enabled(w, e) && Gone(w, s)
    requires e.Die? || e.Retire? || e.Fire? || e.Pay? || e.Shutdown?
    ensures Gone(Apply(w, e), s)
  {
  }

  lemma GoneStays(w: World, e: Event, s: Sid)
    requires Inv(w) && Enabled(w, e) && Gone(w, s)
    ensures Gone(Apply(w, e), s)
  {
    if e.EnterAcquire? {
      GoneEnter(w, e.t, e.k, e.dead, e.retired, s);
    } else if e.Shake? || e.FinishAcquire? || e.Settle? {
      GoneAcquire(w, e, s);
    } else if e.RunHook? {
      GoneHook(w, e.s, s);
    } else if e.ReleaseOne? {
      GoneRelease(w, e.s, e.newTimer, s);
    } else if e.Idle? {
      GoneIdle(w, e.timer, s);
    } else {
      GoneRest(w, e, s);
    }
  }

  lemma {:induction false} GoneRun(w: World, es: seq<Event>, s: Sid)
    requires Inv(w) && Gone(w, s) && Run(w, es)
    ensures Gone(After(w, es), s)
    decreases |es|
  {
    if es != [] {
      EventKeeps(w, es[0]);
      GoneStays(w, es[0], s);
      GoneRun(Apply(w, es[0]), es[1..], s);
    }
  }

  /**
   * Neither idle expiry nor the release of a retired tunnel ever closes a client that
   * someone holds: when one of them owes a Close, nobody holds the client, and in no
   * continuation, so not when the Close comes either, does anybody again.
   */
  lemma ExpiryNeverClosesHeld(w: World, es: seq<Event>, s: Sid)
    requires Reachable(w) && s in w.owed.idle && Run(w, es)
    ensures Holders(w.env, s) == 0 && Holders(After(w, es).env, s) == 0
  {
    ReachableInv(w);
    IdleIsGone(w, s);
    GoneRun(w, es, s);
  }

  lemma IdleIsGone(w: World, s: Sid)
    requires Inv(w) && s in w.owed.idle
    ensures Gone(w, s)
  {
  }
}

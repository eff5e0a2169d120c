/**
 * Threads that take and drop locks, and why a strict order rules out deadlock. The locks
 * are those of the session manager, of any number of tunnels and of their connections;
 * the send permit of a tunnel is the lock that a channel of capacity one makes. Read locks
 * and write locks differ, and a waiting writer may hold up later readers.
 */
module Locks {
  type TunnelId = nat
  type ConnId = nat

  datatype Lock =
    | ManagerMu
    | DialMu(t: TunnelId)
    | TunnelMu(t: TunnelId)
    | AckMu(t: TunnelId)
    | Permit(t: TunnelId)
    | WriteDeadlineMu(t: TunnelId)
    | ConnMu(c: ConnId)
    | RealmsMu(t: TunnelId)
    | ConnChMu(t: TunnelId)
    | SessionMu(t: TunnelId)
    | MissedHeartbeatsMu(t: TunnelId)
    | LastAckTimeMu(t: TunnelId)

  datatype Mode = Shared | Exclusive

  /** Work is any step that waits for no lock, such as a UDP write that returns. */
  datatype Op = Take(lock: Lock, mode: Mode) | Drop(lock: Lock) | Work

  const TOP := 12

  /** The order of acquisition. */
  function Rank(l: Lock): (r: nat)
    ensures r < TOP
  {
    match l
    case ManagerMu => 0
    case DialMu(_) => 1
    case TunnelMu(_) => 2
    case AckMu(_) => 3
    case Permit(_) => 4
    case WriteDeadlineMu(_) => 5
    case ConnMu(_) => 6
    case RealmsMu(_) => 7
    case ConnChMu(_) => 8
    case SessionMu(_) => 9
    case MissedHeartbeatsMu(_) => 10
    case LastAckTimeMu(_) => 11
  }

  type Held = map<Lock, Mode>

  ghost predicate Below(held: Held, rank: nat) {
    forall l :: l in held ==> Rank(l) < rank
  }

  // Scripts

  /** From holding held, the script takes locks upwards only and ends holding final. */
  ghost predicate Safe(script: seq<Op>, held: Held, final: Held)
    decreases |script|
  {
    if script == [] then held == final
    else match script[0]
      case Take(l, m) => Below(held, Rank(l)) && Safe(script[1..], held[l := m], final)
      case Drop(l) => l in held && Safe(script[1..], held - {l}, final)
      case Work => Safe(script[1..], held, final)
  }

  /** Whatever its caller holds below floor, the script is safe and gives back what it takes. */
  ghost predicate Clean(script: seq<Op>, floor: nat) {
    forall held :: Below(held, floor) ==> Safe(script, held, held)
  }

  /** Code that holds a lock around a body, as a mutex with a deferred unlock does. */
  datatype Code = Guard(lock: Lock, mode: Mode, body: seq<Code>) | Doing

  function Ops(code: seq<Code>): seq<Op>
    decreases code
  {
    if code == [] then []
    else match code[0]
      case Guard(l, m, body) => [Take(l, m)] + Ops(body) + [Drop(l)] + Ops(code[1..])
      case Doing => [Work] + Ops(code[1..])
  }

  /** Every lock is above the floor and above the locks it is taken under. */
  ghost predicate Ordered(code: Code, floor: nat)
    decreases code
  {
    code.Guard? ==>
      floor <= Rank(code.lock) && forall inner :: inner in code.body ==> Ordered(inner, Rank(code.lock) + 1)
  }

  ghost predicate AllOrdered(code: seq<Code>, floor: nat) {
    forall c :: c in code ==> Ordered(c, floor)
  }

  lemma {:induction false} SafeConcat(a: seq<Op>, b: seq<Op>, held: Held, middle: Held, final: Held)
    requires Safe(a, held, middle) && Safe(b, middle, final)
    ensures Safe(a + b, held, final)
    decreases |a|
  {
    if a == [] {
      assert a + b == b;
    } else {
      assert (a + b)[1..] == a[1..] + b;
      match a[0]
      case Take(l, m) => SafeConcat(a[1..], b, held[l := m], middle, final);
      case Drop(l) => SafeConcat(a[1..], b, held - {l}, middle, final);
      case Work => SafeConcat(a[1..], b, held, middle, final);
    }
  }

  lemma {:induction false} OrderedIsClean(code: seq<Code>, floor: nat)
    requires AllOrdered(code, floor)
    ensures Clean(Ops(code), floor)
    decreases code
  {
    if code != [] {
      OrderedIsClean(code[1..], floor);
      assert Ordered(code[0], floor);
      if code[0].Guard? {
        OrderedIsClean(code[0].body, Rank(code[0].lock) + 1);
        forall held | Below(held, floor)
          ensures Safe(Ops(code), held, held)
        {
          GuardIsSafe(code[0].lock, code[0].mode, Ops(code[0].body), Ops(code[1..]), held, floor);
        }
      } else {
        forall held | Below(held, floor)
          ensures Safe(Ops(code), held, held)
        {
          assert Ops(code)[1..] == Ops(code[1..]);
        }
      }
    }
  }

  lemma GuardIsSafe(l: Lock, m: Mode, body: seq<Op>, rest: seq<Op>, held: Held, floor: nat)
    requires floor <= Rank(l) && Below(held, floor) && Clean(body, Rank(l) + 1) && Clean(rest, floor)
    ensures Safe([Take(l, m)] + body + [Drop(l)] + rest, held, held)
  {
    var inner := held[l := m];
    assert Below(held, Rank(l)) && Below(inner, Rank(l) + 1);
    var tail := [Drop(l)] + rest;
    assert tail[1..] == rest && inner - {l} == held;
    SafeConcat(body, tail, inner, inner, held);
    assert ([Take(l, m)] + body + [Drop(l)] + rest)[1..] == body + tail;
  }

  // Threads

  datatype Thread = Thread(held: Held, rest: seq<Op>, waiting: bool)

  const IDLE := Thread(map[], [], false)

  type State = seq<Thread>

  predicate Conflict(held: Mode, wanted: Mode) {
    held == Exclusive || wanted == Exclusive
  }

  predicate HoldsAgainst(th: Thread, l: Lock, m: Mode) {
    l in th.held && Conflict(th.held[l], m)
  }

  predicate WaitsToWrite(th: Thread, l: Lock) {
    th.waiting && th.rest != [] && th.rest[0] == Take(l, Exclusive)
  }

  /** Nobody holds the lock in a mode that excludes this one. */
  predicate Free(s: State, l: Lock, m: Mode) {
    forall j :: 0 <= j < |s| ==> !HoldsAgainst(s[j], l, m)
  }

  /** Free, and no writer is waiting that a reader would have to let pass. */
  predicate Uncontended(s: State, l: Lock, m: Mode) {
    Free(s, l, m) && (m == Shared ==> forall j :: 0 <= j < |s| ==> !WaitsToWrite(s[j], l))
  }

  predicate Blocked(th: Thread) {
    th.waiting && th.rest != [] && th.rest[0].Take?
  }

  predicate Busy(th: Thread) {
    th.rest != []
  }

  function StepThread(th: Thread): Thread
    requires Busy(th)
  {
    match th.rest[0]
    case Take(l, m) => if !th.waiting then th.(waiting := true) else Thread(th.held[l := m], th.rest[1..], false)
    case Drop(l) => Thread(th.held - {l}, th.rest[1..], false)
    case Work => Thread(th.held, th.rest[1..], false)
  }

  /**
   * A lock is granted at the earliest when it is Free; how the runtime lets readers and
   * writers overtake one another is left open.
   */
  predicate CanStep(s: State, i: nat) {
    i < |s| && Busy(s[i]) && (Blocked(s[i]) ==> Free(s, s[i].rest[0].lock, s[i].rest[0].mode))
  }

  /** A step that no policy for readers and writers can refuse. */
  predicate MustStep(s: State, i: nat) {
    i < |s| && Busy(s[i]) && (Blocked(s[i]) ==> Uncontended(s, s[i].rest[0].lock, s[i].rest[0].mode))
  }

  function Step(s: State, i: nat): State
    requires CanStep(s, i)
  {
    s[i := StepThread(s[i])]
  }

  // What every state of scripted threads has

  ghost predicate ThreadOk(th: Thread) {
    Safe(th.rest, th.held, map[]) && (th.waiting ==> Blocked(th))
  }

  ghost predicate Excluded(a: Thread, b: Thread) {
    forall l :: l in a.held && l in b.held ==> a.held[l] == Shared && b.held[l] == Shared
  }

  ghost predicate Inv(s: State) {
    && (forall i :: 0 <= i < |s| ==> ThreadOk(s[i]))
    && (forall i, j :: 0 <= i < |s| && 0 <= j < |s| && i != j ==> Excluded(s[i], s[j]))
  }

  lemma StepKeeps(s: State, i: nat)
    requires Inv(s) && CanStep(s, i)
    ensures Inv(Step(s, i))
  {
    var th, th' := s[i], StepThread(s[i]);
    assert ThreadOk(th) && ThreadOk(th');
    forall j | 0 <= j < |s| && i != j
      ensures Excluded(th', s[j]) && Excluded(s[j], th')
    {
      assert Excluded(th, s[j]) && Excluded(s[j], th);
      if Blocked(th) {
        assert !HoldsAgainst(s[j], th.rest[0].lock, th.rest[0].mode);
      }
    }
  }

  // Waiting

  /** Thread i waits for thread j: j holds the lock against it, or is a writer it must let pass. */
  predicate WaitsFor(s: State, i: nat, j: nat) {
    && i < |s| && j < |s| && Blocked(s[i])
    && var want := s[i].rest[0];
       (HoldsAgainst(s[j], want.lock, want.mode) || (want.mode == Shared && WaitsToWrite(s[j], want.lock)))
  }

  /** A reader is below a writer that waits for the same lock. */
  function Height(th: Thread): (h: nat)
    requires Blocked(th)
    ensures h < 2 * TOP
  {
    2 * Rank(th.rest[0].lock) + if th.rest[0].mode == Exclusive then 1 else 0
  }

  lemma WaitingClimbs(s: State, i: nat, j: nat)
    requires Inv(s) && WaitsFor(s, i, j)
    ensures Busy(s[j])
    ensures Blocked(s[j]) ==> Height(s[i]) < Height(s[j])
  {
  }

  ghost predicate WaitPath(s: State, path: seq<nat>) {
    forall k :: 0 <= k < |path| - 1 ==> WaitsFor(s, path[k], path[k + 1])
  }

  lemma {:induction false} PathClimbs(s: State, path: seq<nat>)
    requires Inv(s) && |path| >= 2 && WaitPath(s, path)
    requires path[|path| - 1] < |s| && Blocked(s[path[|path| - 1]])
    ensures path[0] < |s| && Blocked(s[path[0]])
    ensures Height(s[path[0]]) < Height(s[path[|path| - 1]])
    decreases |path|
  {
    assert WaitsFor(s, path[0], path[1]);
    WaitingClimbs(s, path[0], path[1]);
    if |path| > 2 {
      var tail := path[1..];
      forall k | 0 <= k < |tail| - 1
        ensures WaitsFor(s, tail[k], tail[k + 1])
      {
        assert WaitsFor(s, path[k + 1], path[k + 2]);
      }
      PathClimbs(s, tail);
    }
  }

  /** No thread waits, directly or through others, for itself. */
  lemma NoCycle(s: State, path: seq<nat>)
    requires Inv(s) && |path| >= 2 && WaitPath(s, path)
    ensures path[0] != path[|path| - 1]
  {
    if path[0] == path[|path| - 1] {
      assert WaitsFor(s, path[0], path[1]);
      PathClimbs(s, path);
    }
  }

  lemma HeldUpBy(s: State, i: nat) returns (j: nat)
    requires i < |s| && Blocked(s[i]) && !Uncontended(s, s[i].rest[0].lock, s[i].rest[0].mode)
    ensures WaitsFor(s, i, j)
  {
    var want := s[i].rest[0];
    if !Free(s, want.lock, want.mode) {
      j :| 0 <= j < |s| && HoldsAgainst(s[j], want.lock, want.mode);
    } else {
      j :| 0 <= j < |s| && WaitsToWrite(s[j], want.lock);
    }
  }

  /** Following the waits from a busy thread leads to one that nothing holds up. */
  lemma {:induction false} Unblock(s: State, i: nat) returns (j: nat)
    requires Inv(s) && i < |s| && Busy(s[i])
    ensures MustStep(s, j)
    decreases if Blocked(s[i]) then 2 * TOP - Height(s[i]) else 0
  {
    j := i;
    if Blocked(s[i]) && !Uncontended(s, s[i].rest[0].lock, s[i].rest[0].mode) {
      var next := HeldUpBy(s, i);
      WaitingClimbs(s, i, next);
      j := Unblock(s, next);
    }
  }

  // The work that is left

  function Cost(script: seq<Op>): nat
    decreases |script|
  {
    if script == [] then 0 else (if script[0].Take? then 2 else 1) + Cost(script[1..])
  }

  /** Steps until the thread is idle: a lock takes two, arriving and being granted. */
  function Left(th: Thread): int {
    Cost(th.rest) - if Blocked(th) then 1 else 0
  }

  function TotalLeft(s: State): int {
    if s == [] then 0 else Left(s[0]) + TotalLeft(s[1..])
  }

  lemma {:induction false} TotalUpdate(s: State, i: nat, th: Thread)
    requires i < |s|
    ensures TotalLeft(s[i := th]) == TotalLeft(s) - Left(s[i]) + Left(th)
  {
    if i > 0 {
      assert s[i := th][1..] == s[1..][i - 1 := th];
      TotalUpdate(s[1..], i - 1, th);
    } else {
      assert s[i := th][1..] == s[1..];
    }
  }

  lemma StepCosts(s: State, i: nat)
    requires Inv(s) && CanStep(s, i)
    ensures TotalLeft(Step(s, i)) == TotalLeft(s) - 1
  {
    assert ThreadOk(s[i]);
    TotalUpdate(s, i, StepThread(s[i]));
  }

  lemma {:induction false} TotalNonnegative(s: State)
    ensures TotalLeft(s) >= 0
    ensures TotalLeft(s) == 0 <==> forall th :: th in s ==> !Busy(th)
  {
    if s != [] {
      TotalNonnegative(s[1..]);
      assert Left(s[0]) >= 0 && (Left(s[0]) == 0 <==> !Busy(s[0]));
      assert s == [s[0]] + s[1..];
      assert s[0] in s;
    }
  }
}

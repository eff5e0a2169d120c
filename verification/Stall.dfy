/** The outbound stall detector: has the device stopped consuming our data? */
module Stall {
  import opened Bytes
  import opened PtcpSession

  /** Milliseconds. */
  const STALL_TIMEOUT := 20_000

  /** One call of outboundStalled: the counters it reads and the clock. */
  datatype Check = Check(st: Stats, now: int)

  class Detector {
    var lastDrain: U32
    var lastDrainTime: int
    var clockStarted: bool  // lastDrainTime is not the zero time

    /** Every check so far, oldest first. */
    ghost var history: seq<Check>

    constructor ()
      ensures Valid() && history == []
    {
      lastDrain, lastDrainTime, clockStarted := 0, 0, false;
      history := [];
    }

    ghost predicate Valid()
      reads this
    {
      if history == [] then
        !clockStarted && lastDrain == 0
      else
        && clockStarted
        && lastDrain == history[|history| - 1].st.peerRecv
        && lastDrainTime == history[LastReset(history, |history| - 1)].now
    }

    /** The answer depends on the whole history exactly as StalledAt says. */
    method OutboundStalled(st: Stats, now: int) returns (stalled: bool)
      requires Valid()
      modifies this
      ensures Valid() && history == old(history) + [Check(st, now)]
      ensures stalled == StalledAt(history, |history| - 1)
    {
      history := history + [Check(st, now)];
      LastResetStable(old(history), Check(st, now), |history| - 2);
      if OutBytes(st) <= 0 {
        lastDrain, lastDrainTime, clockStarted := st.peerRecv, now, true;
        return false;
      }
      if st.peerRecv != lastDrain {
        lastDrain, lastDrainTime, clockStarted := st.peerRecv, now, true;
        return false;
      }
      if !clockStarted {
        lastDrainTime, clockStarted := now, true;
        return false;
      }
      return now - lastDrainTime > STALL_TIMEOUT;
    }
  }

  /** Check i sees progress, or nothing to make progress on, or is the first one. */
  predicate Resets(h: seq<Check>, i: nat)
    requires i < |h|
  {
    i == 0 || OutBytes(h[i].st) <= 0 || h[i].st.peerRecv != h[i - 1].st.peerRecv
  }

  function LastReset(h: seq<Check>, i: nat): (r: nat)
    requires i < |h|
    ensures r <= i
  {
    if Resets(h, i) then i else LastReset(h, i - 1)
  }

  /** What the answer to check i means: the last reset was more than the timeout ago. */
  predicate StalledAt(h: seq<Check>, i: nat)
    requires i < |h|
  {
    !Resets(h, i) && h[i].now - h[LastReset(h, i)].now > STALL_TIMEOUT
  }

  lemma {:induction false} LastResetStable(h: seq<Check>, c: Check, i: int)
    requires i < |h|
    ensures 0 <= i ==> LastReset(h + [c], i) == LastReset(h, i)
  {
    if 0 <= i {
      if !Resets(h, i) {
        LastResetStable(h, c, i - 1);
      }
    }
  }

  /** From check j on, the device consumes nothing although bytes are outstanding. */
  ghost predicate FrozenSince(h: seq<Check>, j: nat, i: nat)
    requires i < |h|
  {
    forall k :: j < k <= i ==> OutBytes(h[k].st) > 0 && h[k].st.peerRecv == h[j].st.peerRecv
  }

  lemma {:induction false} LastResetIsLast(h: seq<Check>, i: nat)
    requires i < |h|
    ensures Resets(h, LastReset(h, i)) && FrozenSince(h, LastReset(h, i), i)
  {
    if !Resets(h, i) {
      LastResetIsLast(h, i - 1);
    }
  }

  lemma {:induction false} LastResetNotBefore(h: seq<Check>, j: nat, i: nat)
    requires j <= i < |h| && FrozenSince(h, j, i)
    ensures LastReset(h, i) <= j
  {
    if j < i {
      LastResetNotBefore(h, j, i - 1);
    }
  }

  ghost predicate Monotone(h: seq<Check>) {
    forall i, j :: 0 <= i <= j < |h| ==> h[i].now <= h[j].now
  }

  /**
   * Sound and complete: check i reports a stall if and only if some earlier check lies
   * more than the timeout back and every check after it saw outstanding bytes and the
   * same peerRecv as that one.
   */
  lemma StallIffFrozen(h: seq<Check>, i: nat)
    requires i < |h| && Monotone(h)
    ensures StalledAt(h, i)
       <==> exists j :: 0 <= j < i && h[i].now - h[j].now > 20_000 && FrozenSince(h, j, i)
  {
    var r := LastReset(h, i);
    LastResetIsLast(h, i);
    if StalledAt(h, i) {
      assert r < i && FrozenSince(h, r, i);
    }
    forall j | 0 <= j < i && h[i].now - h[j].now > STALL_TIMEOUT && FrozenSince(h, j, i)
      ensures StalledAt(h, i)
    {
      LastResetNotBefore(h, j, i);
    }
  }

  /**
   * Bounded: with checks at most 5 s apart, a device frozen since check j is reported
   * by the first check more than 20 s after it, which is at most 25 s after it.
   */
  lemma {:induction false} StallIsDetected(h: seq<Check>, j: nat, i: nat) returns (d: nat)
    requires j < i < |h| && Monotone(h)
    requires forall k :: j <= k < i ==> h[k + 1].now - h[k].now <= 5_000
    requires FrozenSince(h, j, i)
    requires h[i].now - h[j].now > 20_000
    ensures j < d <= i && StalledAt(h, d) && h[d].now - h[j].now <= 25_000
    decreases i
  {
    if h[i - 1].now - h[j].now > STALL_TIMEOUT {
      d := StallIsDetected(h, j, i - 1);
    } else {
      d := i;
      StallIffFrozen(h, i);
    }
  }

  /**
   * Outstanding bytes count as such while there are between 1 and 2^31 - 1 of them, and
   * only then: a device frozen with 2^31 or more unread bytes looks idle.
   */
  lemma OutstandingIsVisible(sent: nat, consumed: nat, st: Stats)
    requires consumed <= sent < consumed + TWO_32
    requires st.sent == Wrap32(sent) && st.peerRecv == Wrap32(consumed)
    ensures OutBytes(st) > 0 <==> 0 < sent - consumed < TWO_31
  {
  }
}

/**
 * From Write on one side to Read on the other: fragmenting, serializing, datagrams that
 * arrive in order and without loss, parsing, dispatching, and reads of any size.
 */
module EndToEnd {
  import opened Bytes
  import opened Codec
  import opened ConnStream
  import opened Demux

  /** The datagrams of packets sent in order, whatever their headers. */
  function Datagrams(ps: seq<Packet>): seq<seq<Byte>> {
    if ps == [] then [] else [PacketBytes(ps[0])] + Datagrams(ps[1..])
  }

  /** What the reader makes of one datagram, as far as realms are concerned. */
  function ReaderEvent(d: seq<Byte>): seq<Event> {
    match ParsePacket(d)
    case Ok(Packet(_, Payload(r, data))) => [PayloadIn(r, data)]
    case Ok(Packet(_, Status(r, status))) => if status == STATUS_DISCONNECT then [DiscIn(r)] else []
    case _ => []
  }

  function ReaderEvents(wire: seq<seq<Byte>>): seq<Event> {
    if wire == [] then [] else ReaderEvent(wire[0]) + ReaderEvents(wire[1..])
  }

  /** The inbound packets among the events of a run. */
  function InboundEvents(es: seq<Event>): seq<Event> {
    if es == [] then []
    else (if es[0].PayloadIn? || es[0].DiscIn? then [es[0]] else []) + InboundEvents(es[1..])
  }

  /** The payloads of realm r among inbound events, and among sent packets. */
  function PayloadsIn(es: seq<Event>, r: Realm): seq<seq<Byte>> {
    if es == [] then []
    else (if es[0].PayloadIn? && es[0].r == r then [es[0].data] else []) + PayloadsIn(es[1..], r)
  }

  function PayloadsOf(ps: seq<Packet>, r: Realm): seq<seq<Byte>> {
    if ps == [] then []
    else (if ps[0].body.Payload? && ps[0].body.realm == r then [ps[0].body.data] else []) + PayloadsOf(ps[1..], r)
  }

  lemma {:induction false} PayloadsInConcat(xs: seq<Event>, ys: seq<Event>, r: Realm)
    ensures PayloadsIn(xs + ys, r) == PayloadsIn(xs, r) + PayloadsIn(ys, r)
  {
    if xs == [] {
      assert xs + ys == ys;
    } else {
      assert (xs + ys)[1..] == xs[1..] + ys;
      PayloadsInConcat(xs[1..], ys, r);
    }
  }

  /** Serializing and parsing carries every realm's payloads across unchanged and in order. */
  lemma {:induction false} WireCarriesPayloads(ps: seq<Packet>, r: Realm)
    requires forall i :: 0 <= i < |ps| ==> Canonical(ps[i].body)
    ensures PayloadsIn(ReaderEvents(Datagrams(ps)), r) == PayloadsOf(ps, r)
  {
    if ps != [] {
      var d := PacketBytes(ps[0]);
      PacketRoundTrip(ps[0]);
      assert Datagrams(ps)[1..] == Datagrams(ps[1..]);
      PayloadsInConcat(ReaderEvent(d), ReaderEvents(Datagrams(ps[1..])), r);
      WireCarriesPayloads(ps[1..], r);
      assert forall e: Event :: [e][1..] == [];
    }
  }

  lemma {:induction false} InboundPayloads(es: seq<Event>, r: Realm)
    ensures PayloadsIn(InboundEvents(es), r) == PayloadsIn(es, r)
  {
    if es != [] {
      InboundPayloads(es[1..], r);
      if es[0].PayloadIn? || es[0].DiscIn? {
        assert InboundEvents(es)[1..] == InboundEvents(es[1..]);
      } else {
        assert InboundEvents(es) == InboundEvents(es[1..]);
      }
    }
  }

  lemma ArrivalStep(s: State, e: Event, c: ConnId)
    requires Enabled(s, e) && c in s.conns
    ensures c in Apply(s, e).conns && Apply(s, e).conns[c].realm == s.conns[c].realm
    ensures Apply(s, e).conns[c].arrivals ==
            s.conns[c].arrivals + if e.PayloadIn? && e.r == s.conns[c].realm then [e.data] else []
  {
  }

  /** A Conn is offered exactly the payloads of its realm, from its installation on. */
  lemma {:induction false} ArrivalsAreEvents(s: State, es: seq<Event>, c: ConnId)
    requires Run(s, es) && c in s.conns
    ensures c in After(s, es).conns && After(s, es).conns[c].realm == s.conns[c].realm
    ensures After(s, es).conns[c].arrivals == s.conns[c].arrivals + PayloadsIn(es, s.conns[c].realm)
    decreases |es|
  {
    if es != [] {
      ArrivalStep(s, es[0], c);
      ArrivalsAreEvents(Apply(s, es[0]), es[1..], c);
    }
  }

  /** The fragments of a sequence of writes. */
  function WriteFragments(writes: seq<seq<Byte>>): seq<seq<Byte>> {
    if writes == [] then [] else Fragments(writes[0]) + WriteFragments(writes[1..])
  }

  lemma {:induction false} WriteFragmentsFlatten(writes: seq<seq<Byte>>)
    ensures Flatten(WriteFragments(writes)) == Flatten(writes)
  {
    if writes != [] {
      FragmentsFlatten(writes[0]);
      WriteFragmentsFlatten(writes[1..]);
      FlattenConcat(Fragments(writes[0]), WriteFragments(writes[1..]));
    }
  }

  lemma ArrivedPayloads(s: State, c: ConnId, es: seq<Event>, ps: seq<Packet>)
    requires c in s.conns && s.conns[c].arrivals == [] && Run(s, es)
    requires InboundEvents(es) == ReaderEvents(Datagrams(ps))
    requires forall i :: 0 <= i < |ps| ==> Canonical(ps[i].body)
    ensures c in After(s, es).conns
    ensures After(s, es).conns[c].arrivals == PayloadsOf(ps, s.conns[c].realm)
  {
    var r := s.conns[c].realm;
    ArrivalsAreEvents(s, es, c);
    InboundPayloads(es, r);
    WireCarriesPayloads(ps, r);
  }

  lemma SettledStream(s: State, c: ConnId)
    requires Inv(s) && c in s.conns && InMap(s, c) && s.reader.Idle?
    ensures var st := s.conns[c];
            && st.delivered + Content(st.buf) == Flatten(st.arrivals)
            && (ReadPass(st.buf, 1).0.Park? ==> st.delivered == Flatten(st.arrivals))
  {
    var st := s.conns[c];
    assert Placed(s, c) && Whole(st);
    assert st.arrivals[..st.taken] == st.arrivals;
    ReadPassConserves(st.buf, 1);
  }

  // What Write puts on the wire

  lemma PayloadBodiesConcat(realm: U32, xs: seq<seq<Byte>>, ys: seq<seq<Byte>>)
    ensures PayloadBodies(realm, xs + ys) == PayloadBodies(realm, xs) + PayloadBodies(realm, ys)
  {
  }

  lemma {:induction false} WriteFragmentsSnoc(writes: seq<seq<Byte>>, p: seq<Byte>)
    ensures WriteFragments(writes + [p]) == WriteFragments(writes) + Fragments(p)
  {
    if writes == [] {
      assert writes + [p] == [p] && [p][1..] == [];
    } else {
      assert (writes + [p])[1..] == writes[1..] + [p];
      WriteFragmentsSnoc(writes[1..], p);
    }
  }

  /** A writer that writes one buffer after the other. */
  method WriteEach(link: Outbox, realm: U32, writes: seq<seq<Byte>>) returns (ok: bool)
    modifies link
    ensures ok ==> link.sent == old(link.sent) + PayloadBodies(realm, WriteFragments(writes))
  {
    for i := 0 to |writes|
      invariant link.sent == old(link.sent) + PayloadBodies(realm, WriteFragments(writes[..i]))
    {
      ghost var before := WriteFragments(writes[..i]);
      var n, good, k := Write(link, realm, false, false, writes[i]);
      if !good {
        return false;
      }
      assert Fragments(writes[i])[..k] == Fragments(writes[i]);
      assert writes[..i + 1] == writes[..i] + [writes[i]];
      WriteFragmentsSnoc(writes[..i], writes[i]);
      PayloadBodiesConcat(realm, before, Fragments(writes[i]));
    }
    assert writes[..|writes|] == writes;
    return true;
  }

  /** The payload bodies of realm r among the packets sent. */
  function BodiesFor(ps: seq<Packet>, r: Realm): seq<Body> {
    if ps == [] then []
    else (if ps[0].body.Payload? && ps[0].body.realm == r then [ps[0].body] else []) + BodiesFor(ps[1..], r)
  }

  lemma {:induction false} BodiesCarryPayloads(ps: seq<Packet>, r: Realm)
    ensures BodiesFor(ps, r) == PayloadBodies(r, PayloadsOf(ps, r))
  {
    if ps != [] {
      BodiesCarryPayloads(ps[1..], r);
      if ps[0].body.Payload? && ps[0].body.realm == r {
        PayloadBodiesConcat(r, [ps[0].body.data], PayloadsOf(ps[1..], r));
      }
    }
  }

  lemma SamePayloads(r: Realm, xs: seq<seq<Byte>>, ys: seq<seq<Byte>>)
    requires PayloadBodies(r, xs) == PayloadBodies(r, ys)
    ensures xs == ys
  {
    assert |PayloadBodies(r, xs)| == |xs| && |PayloadBodies(r, ys)| == |ys|;
    forall i | 0 <= i < |xs|
      ensures xs[i] == ys[i]
    {
      assert PayloadBodies(r, xs)[i] == Payload(r, xs[i]) && PayloadBodies(r, ys)[i] == Payload(r, ys[i]);
    }
  }

  lemma {:induction false} WriteFragmentsAreSmall(writes: seq<seq<Byte>>)
    ensures forall f :: f in WriteFragments(writes) ==> |f| <= MAX_PAYLOAD
  {
    if writes != [] {
      WriteFragmentsAreSmall(writes[1..]);
      forall i | 0 <= i < |Fragments(writes[0])|
        ensures |Fragments(writes[0])[i]| <= MAX_PAYLOAD
      {
        FragmentSizes(writes[0], i);
      }
    }
  }

  lemma {:induction false} SmallPayloadsAreCanonical(ps: seq<Packet>, r: Realm)
    requires forall f :: f in PayloadsOf(ps, r) ==> |f| <= MAX_PAYLOAD
    ensures forall i :: 0 <= i < |ps| && ps[i].body.Payload? && ps[i].body.realm == r ==> Canonical(ps[i].body)
  {
    if ps != [] {
      SmallPayloadsAreCanonical(ps[1..], r);
      forall i | 0 <= i < |ps| && ps[i].body.Payload? && ps[i].body.realm == r
        ensures Canonical(ps[i].body)
      {
        if i == 0 {
          assert PayloadsOf(ps, r)[0] == ps[0].body.data;
        } else {
          assert ps[i] == ps[1..][i - 1];
        }
      }
    }
  }

  /**
   * The packets of realm r carry exactly the bodies that WriteEach sends for the writes, among
   * arbitrary canonical packets of other kinds and realms.
   */
  ghost predicate Carries(ps: seq<Packet>, r: Realm, writes: seq<seq<Byte>>) {
    && BodiesFor(ps, r) == PayloadBodies(r, WriteFragments(writes))
    && (forall i :: 0 <= i < |ps| && !(ps[i].body.Payload? && ps[i].body.realm == r) ==> Canonical(ps[i].body))
  }

  lemma CarriedPayloads(ps: seq<Packet>, r: Realm, writes: seq<seq<Byte>>)
    requires Carries(ps, r, writes)
    ensures PayloadsOf(ps, r) == WriteFragments(writes)
    ensures forall i :: 0 <= i < |ps| ==> Canonical(ps[i].body)
  {
    BodiesCarryPayloads(ps, r);
    SamePayloads(r, PayloadsOf(ps, r), WriteFragments(writes));
    WriteFragmentsAreSmall(writes);
    SmallPayloadsAreCanonical(ps, r);
  }

  // The stream

  /**
   * Conn c is installed; from then on, in any interleaving with reads of any sizes and with
   * the life of all other realms, the reader sees the datagrams of packets ps in order and
   * without loss. If c's queue never overflowed and the realm is still in the map, then what
   * was read and what is still buffered is exactly what was written; and once a read would
   * have to wait, all of it was read.
   */
  lemma StreamIsPreserved(s: State, c: ConnId, es: seq<Event>, ps: seq<Packet>, writes: seq<seq<Byte>>)
    requires Reachable(s) && c in s.conns && s.conns[c].arrivals == [] && Run(s, es)
    requires InboundEvents(es) == ReaderEvents(Datagrams(ps)) && Carries(ps, s.conns[c].realm, writes)
    ensures var s' := After(s, es);
            && c in s'.conns
            && (InMap(s', c) && s'.reader.Idle? ==>
                  var st := s'.conns[c];
                  && st.delivered + Content(st.buf) == Flatten(writes)
                  && (ReadPass(st.buf, 1).0.Park? ==> st.delivered == Flatten(writes)))
  {
    var s' := After(s, es);
    CarriedPayloads(ps, s.conns[c].realm, writes);
    ArrivedPayloads(s, c, es, ps);
    WriteFragmentsFlatten(writes);
    ReachableInv(s);
    RunKeeps(s, es);
    if InMap(s', c) && s'.reader.Idle? {
      SettledStream(s', c);
    }
  }

  /** A DISC on the wire is a DISC for the reader. */
  lemma DiscIsRead(h: Header, r: Realm)
    ensures ReaderEvent(PacketBytes(Packet(h, Status(r, [0x44, 0x49, 0x53, 0x43])))) == [DiscIn(r)]  // "DISC"
  {
    PacketRoundTrip(Packet(h, Status(r, STATUS_DISCONNECT)));
  }

  lemma DiscEndsService(s: State, c: ConnId)
    requires Inv(s) && c in s.conns && InMap(s, c) && s.reader.Idle?
    ensures var s' := Apply(s, DiscIn(s.conns[c].realm));
            && Inv(s') && c in s'.conns && s'.conns[c] == s.conns[c] && !CanStillServe(s', c)
  {
    EventKeeps(s, DiscIn(s.conns[c].realm));
  }

  lemma EofAfterDisc(s: State, c: ConnId, more: seq<Event>)
    requires Inv(s) && c in s.conns && InMap(s, c) && s.reader.Idle?
    requires Run(Apply(s, DiscIn(s.conns[c].realm)), more)
    ensures var end := After(Apply(s, DiscIn(s.conns[c].realm)), more);
            c in end.conns && (AtEof(end, c) ==> end.conns[c].delivered == Flatten(s.conns[c].arrivals))
  {
    hide Apply, CanStillServe;
    assert Placed(s, c);
    DiscEndsService(s, c);
    var gone := Apply(s, DiscIn(s.conns[c].realm));
    RunKeeps(gone, more);
    UnservedRun(gone, more, c);
    var st := After(gone, more).conns[c];
    assert Whole(st) && st.arrivals[..st.taken] == s.conns[c].arrivals;
  }

  /**
   * If the device then disconnects the realm, whatever happens afterwards: a consumer that
   * reads to EOF has read exactly what was written before.
   */
  lemma EofMeansEverything(
      s: State, c: ConnId, es: seq<Event>, ps: seq<Packet>, writes: seq<seq<Byte>>, more: seq<Event>)
    requires Reachable(s) && c in s.conns && s.conns[c].arrivals == [] && Run(s, es)
    requires InboundEvents(es) == ReaderEvents(Datagrams(ps)) && Carries(ps, s.conns[c].realm, writes)
    requires c in After(s, es).conns && InMap(After(s, es), c) && After(s, es).reader.Idle?
    requires Run(Apply(After(s, es), DiscIn(s.conns[c].realm)), more)
    ensures var end := After(Apply(After(s, es), DiscIn(s.conns[c].realm)), more);
            c in end.conns && (AtEof(end, c) ==> end.conns[c].delivered == Flatten(writes))
  {
    hide Apply, Enabled, InMap, AtEof, Inv;
    CarriedPayloads(ps, s.conns[c].realm, writes);
    ArrivedPayloads(s, c, es, ps);
    ArrivalsAreEvents(s, es, c);
    WriteFragmentsFlatten(writes);
    ReachableInv(s);
    RunKeeps(s, es);
    EofAfterDisc(After(s, es), c, more);
  }
}

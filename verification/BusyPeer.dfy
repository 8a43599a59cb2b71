/** From set_local_busy at one station to transmit_i at the other, and back.
  */
module BusyPeer {
  import opened Crc
  import opened Frame
  import opened Link
  import opened Runs
  import opened TwoStations
  import opened Recovery
  import opened FlowControl

  /** Nothing is on its way, everything is delivered and acknowledged, and no timer runs. */
  predicate Settled(s: System) {
    && Recovery.Joined(s) && s.ab == s.ba == [] && s.b.q.received == s.a.q.accepted
    && s.a.q.va == s.a.q.vs && !TimerRuns(s.a) && !TimerRuns(s.b)
  }

  predicate TimerRuns(l: Link) { l.flags.t1 || l.flags.t2 }

  function Rnr(l: Link): Sent { Acknowledgement(l, l.cfg.my, RNR, false, |l.q.received|) }

  // ---------------------------------------------------------------------------------------------
  // One station at a time
  // ---------------------------------------------------------------------------------------------

  lemma BusyIsNoted(b: Link)
    requires b.state.Connected? && !b.flags.localBusy
    ensures SetLocalBusy(b, true).flags == b.flags.(localBusy := true) && SetLocalBusy(b, true).q == b.q
    ensures SetLocalBusy(b, true).log == b.log
  {}

  lemma PayloadGoesOut(a: Link, p: Payload)
    requires Invariant(a) && TransmitIError(a, p) == Ok && a.q.va == a.q.vs
    ensures RingSized(a)
    ensures TransmitI(a, p).log.out ==
      a.log.out + [Sent(Frame(a.peer, I(a.q.vs, a.q.vr, false), p), |a.q.accepted|, |a.q.received|, |a.q.accepted| + 1)]
    ensures TransmitI(a, p).q.accepted == a.q.accepted + [p] && TransmitI(a, p).q.vs == (a.q.vs + 1) % MOD8
    ensures TransmitI(a, p).flags == a.flags.(t1 := true, t2 := false)
    ensures TransmitI(a, p).log.events == a.log.events
  {}

  lemma BusyStationTakes(b: Link, ns: Mod8, nr: Mod8, p: Payload)
    requires Ready(b) && NrIsValid(b.q, nr) && ns == b.q.vr && b.flags.localBusy && !TimerRuns(b)
    ensures var b' := HandleI(b, ns, nr, false, p);
      && b'.log.out == b.log.out + [Rnr(b')] && b'.q.received == b.q.received + [p]
      && b'.flags.localBusy && !TimerRuns(b') && b'.pending == b.pending
  {}

  /** The RNR arrives: V(A) = V(S), T1 stops, and transmit_i is closed. */
  lemma RnrCloses(a: Link, address: Octet)
    requires Ready(a) && !a.flags.remoteBusy && !a.flags.t2
    ensures var a' := HandleS(a, address, RNR, a.q.vs, false);
      && a'.flags.remoteBusy && !TimerRuns(a') && a'.q == a.q.(va := a.q.vs) && a'.log.out == a.log.out
      && FlowEvents(a'.log.events) == FlowEvents(a.log.events) + [PeerBusy] && a'.pending == a.pending
  {
    SHeeds(a, address, RNR, a.q.vs, false);
  }

  lemma ClearanceGoesOut(b: Link)
    requires b.state.Connected? && b.flags.localBusy
    ensures SetLocalBusy(b, false).log.out == b.log.out + [Rr(b, b.peer, false)]
    ensures SetLocalBusy(b, false).flags == b.flags.(localBusy := false) && SetLocalBusy(b, false).q == b.q
  {}

  lemma RrOpens(a: Link, address: Octet, nr: Mod8)
    requires Ready(a) && a.flags.remoteBusy && a.q.va == a.q.vs == nr && !TimerRuns(a)
    ensures var a' := HandleS(a, address, RR, nr, false);
      && !a'.flags.remoteBusy && !TimerRuns(a') && a'.q == a.q && a'.log.out == a.log.out && a'.pending == a.pending
      && FlowEvents(a'.log.events) == FlowEvents(a.log.events) + [PeerReady]
  {
    SHeeds(a, address, RR, nr, false);
  }

  // ---------------------------------------------------------------------------------------------
  // The exchange
  // ---------------------------------------------------------------------------------------------

  lemma StepBusy(s: System) returns (s': System)
    requires Settled(s) && !s.b.flags.localBusy
    ensures Next(s, s', false, Own(Busy(true))) && Settled(s') && s'.b.flags.localBusy
    ensures s'.a == s.a && s'.b.peer == s.b.peer && s'.b.cfg == s.b.cfg
  {
    BusyIsNoted(s.b);
    s' := BMoves(s, Own(Busy(true)));
    assert s.ba + Emitted(s.b, s'.b) == [];
  }

  /** The payload is on its way to a busy station. */
  predicate Offered(s: System, p: Payload) {
    && Recovery.Joined(s) && s.ba == [] && |s.ab| == 1 && s.ab[0].Sent? && s.ab[0].frame.control.I?
    && !s.ab[0].frame.control.pf && s.ab[0].frame.info == p && s.ab[0].frame.address == s.a.peer
    && s.ab[0].ns == |s.b.q.received| && s.a.q.accepted == s.b.q.received + [p] && |p| <= s.a.cfg.maxInfo
    && s.b.flags.localBusy && !TimerRuns(s.b) && !s.a.flags.t2 && !s.a.flags.remoteBusy
  }

  lemma StepOffer(s: System, p: Payload) returns (s': System)
    requires Settled(s) && s.b.flags.localBusy && TransmitIError(s.a, p) == Ok
    ensures Next(s, s', true, Own(Transmit(p))) && Offered(s', p) && s'.b == s.b
    ensures s'.a.log.events == s.a.log.events && s'.a.cfg == s.a.cfg
  {
    PayloadGoesOut(s.a, p);
    s' := AMoves(s, Own(Transmit(p)));
    assert s'.ab == Emitted(s.a, s'.a);
  }

  /** The RNR is on its way back. */
  predicate Declined(s: System) {
    && Recovery.Joined(s) && s.ab == [] && s.ba == [Rnr(s.b)] && s.b.q.received == s.a.q.accepted
    && s.b.flags.localBusy && !TimerRuns(s.b) && !s.a.flags.t2 && !s.a.flags.remoteBusy
  }

  lemma OfferIsUnderstood(s: System, p: Payload)
    requires Offered(s, p)
    ensures Hears(s.b.cfg, s.b.peer, s.ab[0]) && StandsFor(Handed(s.ab[0].frame), s.ab[0].frame)
    ensures s.ab[0].frame.control.ns == s.b.q.vr && NrIsValid(s.b.q, s.ab[0].frame.control.nr)
  {
    SafeBothWays(s);
    FlightIsUnderstood(s.b.q, s.a.q, s.ba, s.ab, 0);
    PayloadsAreWhole(s.a, s.b.cfg);
    HeadStands(s.b, s.a.q, s.ba, s.ab);
  }

  lemma OneFrameArrives(x: Link, ch: seq<Sent>)
    requires |ch| == 1 && Hears(x.cfg, x.peer, ch[0])
    ensures Arrived(x, ch[..1]) == Dispatch(x, Handed(ch[0].frame))
  {
    ArrivedOneMore(x, [], ch[0]);
    assert ch[..1] == [] + [ch[0]];
  }

  lemma OfferArrives(s: System, p: Payload)
    requires Offered(s, p)
    ensures NrIsValid(s.b.q, s.ab[0].frame.control.nr)
    ensures Arrived(s.b, s.ab[..1]) == HandleI(s.b, s.b.q.vr, s.ab[0].frame.control.nr, false, p)
  {
    OfferIsUnderstood(s, p);
    OneFrameArrives(s.b, s.ab);
  }

  /** What b makes of the offer it hears. */
  lemma OfferIsTaken(s: System, p: Payload, m: Link)
    requires Offered(s, p) && m == Arrived(s.b, s.ab[..1])
    ensures m.log.out == s.b.log.out + [Rnr(m)] && m.q.received == s.b.q.received + [p]
    ensures m.flags.localBusy && !TimerRuns(m) && !m.pending
  {
    OfferArrives(s, p);
    BusyStationTakes(s.b, s.b.q.vr, s.ab[0].frame.control.nr, p);
  }

  lemma StepDecline(s: System, p: Payload) returns (s': System)
    requires Offered(s, p)
    ensures Next(s, s', false, Arrive(1)) && Declined(s') && s'.a == s.a
    ensures s'.b.peer == s.b.peer && s'.b.cfg == s.b.cfg
  {
    SafeBothWays(s);
    OfferIsTaken(s, p, Arrived(s.b, s.ab[..1]));
    ArrivalIsPossible(Swap(s), 1);
    s' := BMoves(s, Arrive(1));
    assert s'.ba == Emitted(s.b, s'.b);
  }

  /** The RNR is heard as it was meant. */
  lemma RnrArrives(s: System, m: Link)
    requires Declined(s) && m == Arrived(s.a, s.ba[..1])
    ensures m.flags.remoteBusy && !TimerRuns(m) && m.q == s.a.q.(va := s.a.q.vs) && m.log.out == s.a.log.out
    ensures FlowEvents(m.log.events) == FlowEvents(s.a.log.events) + [PeerBusy] && !m.pending
  {
    assert Sequenced(s.a.q) && s.ba[0].frame.control.nr == s.a.q.vs;
    HeadIsUnderstood(s.a.q, s.b.q, s.ab, s.ba);
    OneHeard(s.a, s.ba[0]);
    RnrCloses(s.a, s.b.cfg.my);
  }

  lemma StepClose(s: System) returns (s': System)
    requires Declined(s)
    ensures Next(s, s', true, Arrive(1)) && Settled(s') && s'.b == s.b && s'.a.flags.remoteBusy
    ensures s'.a.q.accepted == s.a.q.accepted && s'.a.cfg == s.a.cfg
    ensures FlowEvents(s'.a.log.events) == FlowEvents(s.a.log.events) + [PeerBusy]
  {
    RnrArrives(s, Arrived(s.a, s.ba[..1]));
    ArrivalIsPossible(s, 1);
    s' := AMoves(s, Arrive(1));
    assert s'.ab == Emitted(s.a, s'.a);
  }

  /** The RR that ends the busy condition is on its way. */
  predicate Cleared(s: System) {
    && Recovery.Joined(s) && s.ab == [] && s.ba == [Rr(s.b, s.b.peer, false)] && s.b.q.received == s.a.q.accepted
    && s.a.q.va == s.a.q.vs && !TimerRuns(s.a) && !TimerRuns(s.b) && s.a.flags.remoteBusy && !s.b.flags.localBusy
  }

  lemma StepClear(s: System) returns (s': System)
    requires Settled(s) && s.b.flags.localBusy && s.a.flags.remoteBusy
    ensures Next(s, s', false, Own(Busy(false))) && Cleared(s') && s'.a == s.a
    ensures s'.b.peer == s.b.peer && s'.b.cfg == s.b.cfg
  {
    ClearanceGoesOut(s.b);
    s' := BMoves(s, Own(Busy(false)));
    assert s'.ba == Emitted(s.b, s'.b);
  }

  lemma RrArrives(s: System, m: Link)
    requires Cleared(s) && Addresses(s.b, s.a) && m == Arrived(s.a, s.ba[..1])
    ensures !m.flags.remoteBusy && !TimerRuns(m) && m.q == s.a.q && m.log.out == s.a.log.out && !m.pending
    ensures FlowEvents(m.log.events) == FlowEvents(s.a.log.events) + [PeerReady]
  {
    assert Sequenced(s.a.q) && s.ba[0].frame.control.nr == s.a.q.vs;
    OneHeard(s.a, s.ba[0]);
    RrOpens(s.a, s.b.peer, s.a.q.vs);
  }

  lemma StepOpen(s: System) returns (s': System)
    requires Cleared(s) && Addresses(s.b, s.a)
    ensures Next(s, s', true, Arrive(1)) && Settled(s') && s'.b == s.b && !s'.a.flags.remoteBusy
    ensures FlowEvents(s'.a.log.events) == FlowEvents(s.a.log.events) + [PeerReady]
  {
    RrArrives(s, Arrived(s.a, s.ba[..1]));
    ArrivalIsPossible(s, 1);
    s' := AMoves(s, Arrive(1));
    assert s'.ab == Emitted(s.a, s'.a);
  }

  lemma StepUnheard(s: System) returns (s': System)
    requires Cleared(s) && !Addresses(s.b, s.a)
    ensures Next(s, s', true, Arrive(1)) && Settled(s') && s'.a == s.a && s'.b == s.b
  {
    OneUnheard(s.a, s.ba[0]);
    ArrivalIsPossible(s, 1);
    s' := AMoves(s, Arrive(1));
    assert s.ab + Emitted(s.a, s.a) == s.ab;
  }

  lemma StepLost(s: System) returns (s': System)
    requires Cleared(s)
    ensures Next(s, s', true, Lose(0)) && Settled(s') && s'.a == s.a && s'.b == s.b
  {
    s' := AMoves(s, Lose(0));
    assert Without(s.ba, 0) == [];
  }

  /** transmit_i is refused because the peer is busy, whatever the payload. */
  ghost predicate Refuses(l: Link) { forall p: Payload :: TransmitIError(l, p) == PeerIsBusy }

  lemma RefusesIfNoted(l: Link)
    requires l.state.Connected?
    ensures Refuses(l) <==> l.flags.remoteBusy
  {
    if !l.flags.remoteBusy {
      assert TransmitIError(l, []) != PeerIsBusy;
    }
  }

  /** From any settled pair: set_local_busy(true) at b, and the payload that a then sends is delivered and answered with
      an RNR, which closes transmit_i at a for any payload and is reported. */
  lemma BusyStopsPeer(s: System, p: Payload) returns (s1: System, s2: System, s3: System, s4: System)
    requires Settled(s) && !s.b.flags.localBusy && TransmitIError(s.a, p) == Ok
    ensures Next(s, s1, false, Own(Busy(true))) && Next(s1, s2, true, Own(Transmit(p)))
    ensures Next(s2, s3, false, Arrive(1)) && Next(s3, s4, true, Arrive(1))
    ensures Settled(s4) && s4.b.flags.localBusy && s4.a.q.accepted == s.a.q.accepted + [p]
    ensures Refuses(s4.a) && FlowEvents(s4.a.log.events) == FlowEvents(s.a.log.events) + [PeerBusy]
    ensures s4.b.peer == s.b.peer && s4.b.cfg == s.b.cfg && s4.a.cfg == s.a.cfg
  {
    s1 := StepBusy(s);
    s2 := StepOffer(s1, p);
    s3 := StepDecline(s2, p);
    s4 := StepClose(s3);
    RefusesIfNoted(s4.a);
  }

  /** Then set_local_busy(false) at b sends one RR.  If a takes its address and it arrives, transmit_i is open again,
      and that is reported. */
  lemma ClearanceOpensPeer(s: System) returns (s1: System, s2: System)
    requires Settled(s) && s.b.flags.localBusy && s.a.flags.remoteBusy && Addresses(s.b, s.a)
    ensures Next(s, s1, false, Own(Busy(false))) && Next(s1, s2, true, Arrive(1))
    ensures Settled(s2) && !Refuses(s2.a)
    ensures FlowEvents(s2.a.log.events) == FlowEvents(s.a.log.events) + [PeerReady]
  {
    s1 := StepClear(s);
    AddressesStay(s, s1);
    s2 := StepOpen(s1);
    RefusesIfNoted(s2.a);
  }

  /** If it is lost, or a does not take its address, transmit_i stays closed though b is no longer busy. */
  lemma ClearanceIsSentOnce(s: System, lost: bool) returns (s1: System, s2: System)
    requires Settled(s) && s.b.flags.localBusy && s.a.flags.remoteBusy && (lost || !Addresses(s.b, s.a))
    ensures Next(s, s1, false, Own(Busy(false))) && Next(s1, s2, true, if lost then Lose(0) else Arrive(1))
    ensures Settled(s2) && !s2.b.flags.localBusy && Refuses(s2.a)
  {
    s1 := StepClear(s);
    AddressesStay(s, s1);
    if lost {
      s2 := StepLost(s1);
    } else {
      s2 := StepUnheard(s1);
    }
    RefusesIfNoted(s2.a);
  }

  /** And of a settled pair neither the line nor a refused transmit_i moves anything, nor does a timer run that
      might. */
  lemma SettledStays(s: System, m: Move)
    requires Settled(s) && s.a.flags.remoteBusy && Possible(s, m) && (m.Own? ==> m.call.Transmit?)
    ensures After(s, m) == s && !TimerRuns(s.a) && !TimerRuns(s.b)
  {
    match m
    case Own(call) => assert s.ab + Emitted(s.a, s.a) == s.ab;
    case Arrive(n) =>
      assert s.ba[..0] == [] && s.ba[0..] == [];
      assert s.ab + Emitted(s.a, s.a) == s.ab;
    case Lose(k) => assert false;
  }
}

/** How two stations come to be connected, and what the passive one lacks.
  */
module Handshake {
  import opened Crc
  import opened Frame
  import opened Link
  import opened Runs
  import opened TwoStations

  function Sabm(address: Octet): Frame { Frame(address, U(U_SABM, true), []) }

  function Ua(address: Octet): Frame { Frame(address, U(U_UA, true), []) }

  /** link_setup sends a SABM under the peer's address. */
  lemma SetupSends(a: Link, address: Octet)
    requires Starts(a)
    ensures LinkSetup(a, address).state.Connecting? && LinkSetup(a, address).peer == address
    ensures LinkSetup(a, address).cfg == a.cfg && LinkSetup(a, address).q == a.q && !LinkSetup(a, address).pending
    ensures LinkSetup(a, address).log.out == [Sent(Sabm(address), 0, 0, 0)]
  {}

  /** The passive station answers under its own address, is connected, and has learnt no address. */
  lemma SabmOpens(b: Link)
    requires Starts(b)
    ensures Opened(Dispatch(b, Sabm(b.cfg.my))) && Dispatch(b, Sabm(b.cfg.my)).peer == 0
    ensures Dispatch(b, Sabm(b.cfg.my)).log.out == [Sent(Ua(b.cfg.my), 0, 0, 0)]
    ensures Dispatch(b, Sabm(b.cfg.my)).cfg == b.cfg
  {}

  lemma UaOpens(a: Link, address: Octet)
    requires a.state.Connecting? && !a.pending && |a.q.slots| == a.cfg.slotCount <= 7
    ensures Opened(Dispatch(a, Ua(address))) && Dispatch(a, Ua(address)).peer == a.peer
    ensures Dispatch(a, Ua(address)).log.out == a.log.out && Dispatch(a, Ua(address)).cfg == a.cfg
  {}

  lemma OneIsHeard(cfg: Config, peer: Octet, s: Sent)
    requires Hears(cfg, peer, s) && s.frame.info == []
    ensures Heard(cfg, peer, [s]) == [s.frame.(emptied := false)]
  {
    assert [s][..0] == [] && Heard(cfg, peer, []) + [Handed(s.frame)] == [Handed(s.frame)];
    assert Cut(s.frame.info) == s.frame.info;
  }

  lemma OneFrameCall(l: Link, f: Frame)
    requires !Dispatch(l, f).pending
    ensures Allowed(l, Receive([f])) && Do(l, Receive([f])) == Dispatch(l, f)
  {
    OneDispatch(l, f);
  }

  lemma SetupIsCall(a: Link, address: Octet, a1: Link)
    requires Starts(a) && a1 == LinkSetup(a, address)
    ensures Step(a, Setup(address), a1) && Emitted(a, a1) == [Sent(Sabm(address), 0, 0, 0)]
  {
    SetupSends(a, address);
    assert a1.log.out[|a.log.out|..] == a1.log.out;
  }

  /** The SABM arrives. */
  lemma SabmIsHeard(b: Link, b1: Link)
    requires Starts(b) && b.cfg.rxCapacity >= MIN_FRAME_LEN && b1 == Dispatch(b, Sabm(b.cfg.my))
    ensures Step(b, Receive(Heard(b.cfg, b.peer, [Sent(Sabm(b.cfg.my), 0, 0, 0)])), b1)
    ensures Emitted(b, b1) == [Sent(Ua(b.cfg.my), 0, 0, 0)]
  {
    OneIsHeard(b.cfg, b.peer, Sent(Sabm(b.cfg.my), 0, 0, 0));
    SabmOpens(b);
    OneFrameCall(b, Sabm(b.cfg.my));
    assert b1.log.out[|b.log.out|..] == b1.log.out;
  }

  /** The UA arrives. */
  lemma UaIsHeard(a: Link, a1: Link)
    requires a.state.Connecting? && !a.pending && |a.q.slots| == a.cfg.slotCount <= 7
    requires a.cfg.rxCapacity >= MIN_FRAME_LEN && a1 == Dispatch(a, Ua(a.peer))
    ensures Step(a, Receive(Heard(a.cfg, a.peer, [Sent(Ua(a.peer), 0, 0, 0)])), a1) && Emitted(a, a1) == []
  {
    OneIsHeard(a.cfg, a.peer, Sent(Ua(a.peer), 0, 0, 0));
    UaOpens(a, a.peer);
    OneFrameCall(a, Ua(a.peer));
  }

  /** From any two initialised stations link_setup at one, the SABM it sends and the UA that answers lead to an
      opening: both connected and fresh, and nothing on its way.  The active station has the peer's address; the
      passive one has none but 0. */
  lemma HandshakeOpens(a: Link, b: Link) returns (a1: Link, b1: Link, a2: Link)
    requires Starts(a) && Starts(b) && a.cfg.rxCapacity >= MIN_FRAME_LEN && b.cfg.rxCapacity >= MIN_FRAME_LEN
    ensures Step(a, Setup(b.cfg.my), a1)
    ensures Step(b, Receive(Heard(b.cfg, b.peer, Emitted(a, a1))), b1)
    ensures Step(a1, Receive(Heard(a1.cfg, a1.peer, Emitted(b, b1))), a2)
    ensures Emitted(a1, a2) == [] && Opening(System(a2, b1, [], []))
    ensures a2.cfg == a.cfg && b1.cfg == b.cfg && a2.peer == b.cfg.my && b1.peer == 0
  {
    SetupSends(a, b.cfg.my);
    SabmOpens(b);
    a1 := LinkSetup(a, b.cfg.my);
    b1 := Dispatch(b, Sabm(b.cfg.my));
    a2 := Dispatch(a1, Ua(b.cfg.my));
    SetupIsCall(a, b.cfg.my, a1);
    SabmIsHeard(b, b1);
    UaIsHeard(a1, a2);
    UaOpens(a1, b.cfg.my);
  }

  // ---------------------------------------------------------------------------------------------
  // Any SABM, and any DISC
  // ---------------------------------------------------------------------------------------------

  function Disc(address: Octet): Frame { Frame(address, U(U_DISC, true), []) }

  /** x's commands are heard by y and y's responses by x. */
  predicate Reach(x: Link, y: Link) {
    && Addresses(x, y) && Knows(x.cfg.my, x.peer, y.cfg.my)
    && x.cfg.rxCapacity >= MIN_FRAME_LEN && y.cfg.rxCapacity >= MIN_FRAME_LEN
  }

  /** One frame without an info field, which the station hears. */
  lemma OneArrives(l: Link, s: Sent, f: Frame)
    requires Hears(l.cfg, l.peer, s) && s.frame == f && f.info == [] && !f.emptied && !Dispatch(l, f).pending
    ensures Step(l, Receive(Heard(l.cfg, l.peer, [s])), Dispatch(l, f))
  {
    OneIsHeard(l.cfg, l.peer, s);
    OneFrameCall(l, f);
  }

  lemma OneEmitted(l: Link, l': Link, s: Sent)
    requires l'.log.out == l.log.out + [s]
    ensures Emitted(l, l') == [s]
  {}

  lemma NoneEmitted(l: Link, l': Link)
    requires l'.log.out == l.log.out
    ensures Emitted(l, l') == []
  {}

  function UnnumberedSent(l: Link, f: Frame): Sent { Sent(f, 0, |l.q.received|, |l.q.accepted|) }

  /** The states in which a SABM is accepted. */
  predicate Accepts(l: Link) { l.state.Disconnected? || l.state.Connected? || l.state.FrmrError? }

  lemma SabmIsAccepted(b: Link, address: Octet)
    requires Invariant(b) && Accepts(b)
    ensures var b' := Dispatch(b, Sabm(address));
      && Opened(b') && b'.log.out == b.log.out + [Sent(Ua(b.cfg.my), 0, 0, 0)] && b'.cfg == b.cfg && b'.peer == b.peer
      && b'.log.events == b.log.events + [ConnReq]
  {}

  lemma UaIsAccepted(a: Link, address: Octet)
    requires Invariant(a) && a.state.Connecting?
    ensures var a' := Dispatch(a, Ua(address));
      && Opened(a') && a'.log.out == a.log.out && a'.cfg == a.cfg && a'.peer == a.peer
      && a'.log.events == a.log.events + [ConnAccepted]
  {}

  /** From any connecting station whose SABM is heard by one that accepts it: the UA is heard, and both are connected
      and fresh, whatever went before. */
  lemma SabmRound(a: Link, b: Link, s: Sent) returns (b1: Link, a2: Link)
    requires Invariant(a) && a.state.Connecting? && Invariant(b) && Accepts(b) && Reach(a, b)
    requires s.Sent? && s.frame == Sabm(a.peer)
    ensures Step(b, Receive(Heard(b.cfg, b.peer, [s])), b1)
    ensures Step(a, Receive(Heard(a.cfg, a.peer, Emitted(b, b1))), a2)
    ensures Emitted(a, a2) == [] && Opening(System(a2, b1, [], []))
    ensures a2.log.events == a.log.events + [ConnAccepted] && b1.log.events == b.log.events + [ConnReq]
  {
    SabmIsAccepted(b, a.peer);
    b1 := Dispatch(b, Sabm(a.peer));
    OneArrives(b, s, Sabm(a.peer));
    OneEmitted(b, b1, Sent(Ua(b.cfg.my), 0, 0, 0));
    UaIsAccepted(a, b.cfg.my);
    a2 := Dispatch(a, Ua(b.cfg.my));
    OneArrives(a, Sent(Ua(b.cfg.my), 0, 0, 0), Ua(b.cfg.my));
    NoneEmitted(a, a2);
  }

  lemma DiscIsAccepted(b: Link, address: Octet)
    requires b.state.Connected? || b.state.Disconnected?
    ensures var b' := Dispatch(b, Disc(address));
      && b'.state.Disconnected? && (b.state.Connected? ==> b'.flags == QUIET) && b'.pending == b.pending
      && |b'.log.out| == |b.log.out| + 1 && b.log.out <= b'.log.out
      && b'.log.out[|b.log.out|] == UnnumberedSent(b', Ua(b.cfg.my))
      && b'.log.events == b.log.events + (if b.state.Connected? then [PeerDisc] else [])
  {}

  lemma UaEndsRelease(a: Link, address: Octet)
    requires a.state.Disconnecting?
    ensures var a' := Dispatch(a, Ua(address));
      && a'.state.Disconnected? && !a'.flags.t1 && a'.pending == a.pending && a'.log.out == a.log.out
      && a'.log.events == a.log.events + [DiscDone]
  {}

  /** The same of a DISC: both are disconnected. */
  lemma DiscRound(a: Link, b: Link, s: Sent) returns (b1: Link, a2: Link)
    requires a.state.Disconnecting? && (b.state.Connected? || b.state.Disconnected?) && Reach(a, b)
    requires !a.pending && !b.pending && s.Sent? && s.frame == Disc(a.peer)
    ensures Step(b, Receive(Heard(b.cfg, b.peer, [s])), b1)
    ensures Step(a, Receive(Heard(a.cfg, a.peer, Emitted(b, b1))), a2)
    ensures Emitted(a, a2) == [] && a2.state.Disconnected? && b1.state.Disconnected? && !a2.flags.t1
    ensures b.state.Connected? ==> b1.flags == QUIET
    ensures a2.log.events == a.log.events + [DiscDone]
    ensures b1.log.events == b.log.events + (if b.state.Connected? then [PeerDisc] else [])
  {
    DiscIsAccepted(b, a.peer);
    b1 := Dispatch(b, Disc(a.peer));
    OneArrives(b, s, Disc(a.peer));
    assert b1.log.out == b.log.out + [UnnumberedSent(b1, Ua(b.cfg.my))];
    OneEmitted(b, b1, UnnumberedSent(b1, Ua(b.cfg.my)));
    UaEndsRelease(a, b.cfg.my);
    a2 := Dispatch(a, Ua(b.cfg.my));
    OneArrives(a, UnnumberedSent(b1, Ua(b.cfg.my)), Ua(b.cfg.my));
    NoneEmitted(a, a2);
  }

  // ---------------------------------------------------------------------------------------------
  // The calls that begin a round
  // ---------------------------------------------------------------------------------------------

  lemma DisconnectSends(a: Link)
    requires a.state.Connected? || a.state.FrmrError?
    ensures var a' := Disconnect(a);
      && a'.state.Disconnecting? && a'.flags.t1 && a'.log.out == a.log.out + [UnnumberedSent(a, Disc(a.peer))]
      && a'.cfg == a.cfg && a'.peer == a.peer && a'.pending == a.pending
      && a'.log.events == a.log.events + [DiscReq]
  {}

  /** Release: from any connected peer, Disconnect, the DISC and the UA leave both disconnected, and both are told. */
  lemma ReleaseCloses(a: Link, b: Link) returns (a1: Link, b1: Link, a2: Link)
    requires (a.state.Connected? || a.state.FrmrError?) && b.state.Connected? && Reach(a, b)
    requires !a.pending && !b.pending
    ensures Step(a, Call.Disc, a1)
    ensures Step(b, Receive(Heard(b.cfg, b.peer, Emitted(a, a1))), b1)
    ensures Step(a1, Receive(Heard(a1.cfg, a1.peer, Emitted(b, b1))), a2)
    ensures Emitted(a1, a2) == [] && a2.state.Disconnected? && b1.state.Disconnected?
    ensures a2.log.events == a.log.events + [DiscReq, DiscDone] && !a2.flags.t1
    ensures b1.log.events == b.log.events + [PeerDisc] && b1.flags == QUIET
  {
    DisconnectSends(a);
    a1 := Disconnect(a);
    OneEmitted(a, a1, UnnumberedSent(a, Disc(a.peer)));
    b1, a2 := DiscRound(a1, b, UnnumberedSent(a, Disc(a.peer)));
  }

  lemma LinkResetSends(a: Link)
    requires Invariant(a)
    ensures var a' := LinkReset(a);
      && Invariant(a') && a'.state.Connecting? && a'.log.out == a.log.out + [Sent(Sabm(a.peer), 0, 0, 0)]
      && a'.cfg == a.cfg && a'.peer == a.peer
  {
    ResetsKeepInvariant(a);
  }

  /** link_reset, in whatever state, leads to an opening too. */
  lemma ResetOpens(a: Link, b: Link) returns (a1: Link, b1: Link, a2: Link)
    requires Invariant(a) && Invariant(b) && Accepts(b) && Reach(a, b)
    ensures Step(a, Reset, a1)
    ensures Step(b, Receive(Heard(b.cfg, b.peer, Emitted(a, a1))), b1)
    ensures Step(a1, Receive(Heard(a1.cfg, a1.peer, Emitted(b, b1))), a2)
    ensures Emitted(a1, a2) == [] && Opening(System(a2, b1, [], []))
  {
    LinkResetSends(a);
    a1 := LinkReset(a);
    OneEmitted(a, a1, Sent(Sabm(a.peer), 0, 0, 0));
    b1, a2 := SabmRound(a1, b, Sent(Sabm(a.peer), 0, 0, 0));
  }

  // ---------------------------------------------------------------------------------------------
  // Losses in between
  // ---------------------------------------------------------------------------------------------

  /** After n expiries of T1 with no answer. */
  function Unanswered(a: Link, n: nat): Link { if n == 0 then a else T1Expired(Unanswered(a, n - 1)) }

  /** The limit allows so many expiries. */
  predicate RetriesLeft(a: Link, n: nat) { a.cfg.maxRetries == 0 || a.n2 + n <= a.cfg.maxRetries }

  /** The command that a connecting or disconnecting station repeats. */
  function Command(a: Link): Frame { if a.state.Connecting? then Sabm(a.peer) else Disc(a.peer) }

  predicate Asks(a: Link) { a.state.Connecting? || a.state.Disconnecting? }

  lemma OneExpiry(a: Link)
    requires Asks(a) && Invariant(a) && RetriesLeft(a, 1)
    ensures var a' := T1Expired(a);
      && a' == a.(n2 := (a.n2 + 1) % 256, flags := a.flags.(t1 := true),
                  log := a.log.(out := a.log.out + [UnnumberedSent(a, Command(a))]))
      && Invariant(a')
  {
    T1KeepsInvariant(a);
  }

  /** From a to m a station has sent n commands and counted n retries at most. */
  predicate HasRepeated(a: Link, m: Link, n: nat) {
    && Invariant(m) && m.state == a.state && m.n2 <= a.n2 + n && m.cfg == a.cfg && m.peer == a.peer && m.q == a.q
    && m.log.out == a.log.out + seq(n, _ => UnnumberedSent(a, Command(a))) && m.log.events == a.log.events
  }

  lemma OneMoreCommand(a: Link, m: Link, n: nat)
    requires Asks(a) && 0 < n && HasRepeated(a, m, n - 1) && RetriesLeft(a, n)
    ensures HasRepeated(a, T1Expired(m), n)
  {
    OneExpiry(m);
    assert seq(n, _ => UnnumberedSent(a, Command(a)))
      == seq(n - 1, _ => UnnumberedSent(a, Command(a))) + [UnnumberedSent(a, Command(a))];
  }

  /** A connecting or disconnecting station repeats its command, unchanged, as long as its retries last. */
  lemma {:induction false} CommandIsRepeated(a: Link, n: nat)
    requires Asks(a) && Invariant(a) && RetriesLeft(a, n)
    ensures HasRepeated(a, Unanswered(a, n), n)
  {
    if n == 0 {
      assert a.log.out + [] == a.log.out;
    } else {
      CommandIsRepeated(a, n - 1);
      OneMoreCommand(a, Unanswered(a, n - 1), n);
    }
  }

  /** However many SABMs or UAs are lost, with one retry left the next round opens. */
  lemma SetupSurvivesLosses(a: Link, b: Link, n: nat) returns (a1: Link, b1: Link, a2: Link)
    requires Invariant(a) && a.state.Connecting? && RetriesLeft(a, n + 1)
    requires Invariant(b) && Accepts(b) && Reach(a, b)
    ensures Step(Unanswered(a, n), T1Expiry, a1)
    ensures Step(b, Receive(Heard(b.cfg, b.peer, Emitted(Unanswered(a, n), a1))), b1)
    ensures Step(a1, Receive(Heard(a1.cfg, a1.peer, Emitted(b, b1))), a2)
    ensures Emitted(a1, a2) == [] && Opening(System(a2, b1, [], []))
    ensures a2.log.events == a.log.events + [ConnAccepted] && b1.log.events == b.log.events + [ConnReq]
  {
    CommandIsRepeated(a, n);
    OneExpiry(Unanswered(a, n));
    a1 := T1Expired(Unanswered(a, n));
    OneEmitted(Unanswered(a, n), a1, UnnumberedSent(a, Sabm(a.peer)));
    b1, a2 := SabmRound(a1, b, UnnumberedSent(a, Sabm(a.peer)));
  }

  /** So does release: whether the peer is connected yet or has answered before. */
  lemma ReleaseSurvivesLosses(a: Link, b: Link, n: nat) returns (a1: Link, b1: Link, a2: Link)
    requires Invariant(a) && a.state.Disconnecting? && RetriesLeft(a, n + 1)
    requires (b.state.Connected? || b.state.Disconnected?) && !b.pending && Reach(a, b)
    ensures Step(Unanswered(a, n), T1Expiry, a1)
    ensures Step(b, Receive(Heard(b.cfg, b.peer, Emitted(Unanswered(a, n), a1))), b1)
    ensures Step(a1, Receive(Heard(a1.cfg, a1.peer, Emitted(b, b1))), a2)
    ensures Emitted(a1, a2) == [] && a2.state.Disconnected? && b1.state.Disconnected? && !a2.flags.t1
    ensures a2.log.events == a.log.events + [DiscDone]
    ensures b1.log.events == b.log.events + (if b.state.Connected? then [PeerDisc] else [])
  {
    CommandIsRepeated(a, n);
    OneExpiry(Unanswered(a, n));
    a1 := T1Expired(Unanswered(a, n));
    OneEmitted(Unanswered(a, n), a1, UnnumberedSent(a, Disc(a.peer)));
    b1, a2 := DiscRound(a1, b, UnnumberedSent(a, Disc(a.peer)));
  }

  // ---------------------------------------------------------------------------------------------
  // What the passive station's peer hears of it
  // ---------------------------------------------------------------------------------------------

  /** The last frame sent. */
  function Last(l: Link): Sent
    requires l.log.out != []
  {
    l.log.out[|l.log.out| - 1]
  }

  /** The delayed acknowledgement of a station that is not busy is heard if and only if its idea of the peer's address
      is an address that the peer takes. */
  lemma AcknowledgementIsHeard(a: Link, b: Link)
    requires !b.flags.localBusy && a.cfg.rxCapacity >= MIN_FRAME_LEN
    ensures T2Expired(b).log.out != [] && Last(T2Expired(b)).Sent?
    ensures Hears(a.cfg, a.peer, Last(T2Expired(b))) <==> Addresses(b, a)
  {}

  /** So is the REJ that begins an exception. */
  lemma RejIsHeard(a: Link, b: Link, pf: bool)
    requires !b.flags.rej && a.cfg.rxCapacity >= MIN_FRAME_LEN
    ensures OutOfSequence(b, pf).log.out != [] && Last(OutOfSequence(b, pf)).Sent?
    ensures Hears(a.cfg, a.peer, Last(OutOfSequence(b, pf))) <==> Addresses(b, a)
  {}

  lemma TransmissionSends(b: Link, p: Payload)
    requires RingSized(b) && TransmitIError(b, p) == Ok
    ensures TransmitI(b, p).log.out == SendI(b, p, |b.q.accepted|, |b.q.accepted| + 1).log.out
  {}

  /** And every I-frame that fits. */
  lemma IFrameIsHeard(a: Link, b: Link, p: Payload)
    requires RingSized(b) && TransmitIError(b, p) == Ok && a.cfg.rxCapacity >= |p| + MIN_FRAME_LEN
    ensures TransmitI(b, p).log.out != [] && Last(TransmitI(b, p)).Sent?
    ensures Hears(a.cfg, a.peer, Last(TransmitI(b, p))) <==> Addresses(b, a)
  {
    TransmissionSends(b, p);
  }

  /** After a handshake that is: if and only if address 0 is that of one of the two stations. */
  lemma PassiveIsHeard(a: Link, b: Link)
    requires b.peer == 0 && a.peer == b.cfg.my
    ensures Addresses(b, a) <==> a.cfg.my == 0 || b.cfg.my == 0
  {}

  /** Its DISC too is heard if and only if the address it holds is one that the peer takes. */
  lemma DiscIsHeard(a: Link, b: Link)
    requires (b.state.Connected? || b.state.FrmrError?) && a.cfg.rxCapacity >= MIN_FRAME_LEN
    ensures Disconnect(b).log.out != [] && Last(Disconnect(b)).Sent?
    ensures Hears(a.cfg, a.peer, Last(Disconnect(b))) <==> Addresses(b, a)
  {}
}

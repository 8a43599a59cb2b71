/** UI and TEST: what the other end makes of them.
  */
module Datagrams {
  import opened Crc
  import opened Frame
  import opened Link
  import opened Runs
  import opened TwoStations

  function UiFrame(address: Octet, p: Payload): Frame { Frame(address, U(0x03, false), p) }

  function TestFrame(address: Octet, p: Payload): Frame { Frame(address, U(0xE3, true), p) }

  function Bare(l: Link, f: Frame): Sent { Sent(f, 0, |l.q.received|, |l.q.accepted|) }

  /** Nothing happens but that this is sent. */
  predicate OnlySends(l: Link, l': Link, s: Sent) { l' == l.(log := l.log.(out := l.log.out + [s])) }

  /** Nothing happens but that this is delivered. */
  predicate OnlyDelivers(l: Link, l': Link, p: Payload) {
    l' == l.(log := l.log.(delivered := l.log.delivered + [p]))
  }

  /** transmit_ui and transmit_test refuse what is longer than max_info_size, and send the rest in any state. */
  lemma DatagramsAreSent(l: Link, address: Octet, p: Payload)
    ensures |p| <= l.cfg.maxInfo ==>
      && OnlySends(l, TransmitUi(l, address, p), Bare(l, UiFrame(address, p)))
      && OnlySends(l, TransmitTest(l, address, p), Bare(l, TestFrame(address, p)))
    ensures |p| > l.cfg.maxInfo ==>
      && TransmitUError(l, p) == FrameSize && TransmitUi(l, address, p) == TransmitTest(l, address, p) == l
  {}

  lemma OneCall(l: Link, f: Frame, l': Link)
    requires l' == Dispatch(l, f) && !l'.pending
    ensures Step(l, Receive([f]), l')
  {
    OneDispatch(l, f);
  }

  lemma OneHeard(l: Link, s: Sent)
    requires s.Sent?
    ensures Heard(l.cfg, l.peer, [s]) == if Hears(l.cfg, l.peer, s) then [Handed(s.frame)] else []
  {
    assert [s][..0] == [] && Heard(l.cfg, l.peer, []) == [];
    assert [] + [Handed(s.frame)] == [Handed(s.frame)];
  }

  /** A UI frame sent anywhere is delivered, once and as far as 16 bits of length go, by every station that takes the
      address and is connected or disconnected, and by no other; it changes nothing else. */
  lemma UiIsDelivered(b: Link, s: Sent, address: Octet, p: Payload) returns (b': Link)
    requires s.Sent? && s.frame == UiFrame(address, p) && !b.pending
    ensures Step(b, Receive(Heard(b.cfg, b.peer, [s])), b')
    ensures if Hears(b.cfg, b.peer, s) && (b.state.Connected? || b.state.Disconnected?)
            then OnlyDelivers(b, b', Cut(p)) else b' == b
  {
    OneHeard(b, s);
    if Hears(b.cfg, b.peer, s) {
      b' := Dispatch(b, Handed(s.frame));
      OneCall(b, Handed(s.frame), b');
    } else {
      b' := b;
    }
  }

  /** Everybody takes the address 0xFF. */
  lemma BroadcastIsHeard(b: Link, s: Sent)
    requires s.Sent? && s.frame.address == 0xFF
    ensures Hears(b.cfg, b.peer, s) <==> |s.frame.info| + 4 <= b.cfg.rxCapacity
  {}

  lemma CutOnce(p: Payload)
    ensures Cut(Cut(p)) == Cut(p)
  {}

  lemma EchoGoesOut(b: Link, p: Payload) returns (b': Link)
    requires b.state.Connected? && !b.pending && |p| + 4 <= b.cfg.rxCapacity
    ensures b' == Dispatch(b, Handed(TestFrame(b.cfg.my, p))) && !b'.pending
    ensures OnlySends(b, b', Bare(b, TestFrame(b.cfg.my, Cut(p))))
    ensures Emitted(b, b') == [Bare(b, TestFrame(b.cfg.my, Cut(p)))]
  {
    b' := Dispatch(b, Handed(TestFrame(b.cfg.my, p)));
  }

  lemma EchoArrives(a: Link, address: Octet, p: Payload) returns (a': Link)
    requires a.state.Connected? && !a.pending && a.cfg.my != address && Cut(p) == p
    ensures a' == Dispatch(a, Handed(TestFrame(address, p))) && !a'.pending
    ensures if p == [] then a' == a else OnlyDelivers(a, a', p)
  {
    a' := Dispatch(a, Handed(TestFrame(address, p)));
  }

  /** A TEST command for b comes back: b answers with the same payload and P/F bit under its own address, and a delivers
      that, once, unless nothing is left of it. */
  lemma TestIsEchoed(a: Link, b: Link, s: Sent, p: Payload) returns (b': Link, a': Link)
    requires s.Sent? && s.frame == TestFrame(b.cfg.my, p) && a.state.Connected? && b.state.Connected?
    requires !a.pending && !b.pending && Knows(a.cfg.my, a.peer, b.cfg.my) && a.cfg.my != b.cfg.my
    requires |p| + 4 <= b.cfg.rxCapacity && |p| + 4 <= a.cfg.rxCapacity
    ensures Step(b, Receive(Heard(b.cfg, b.peer, [s])), b')
    ensures OnlySends(b, b', Bare(b, TestFrame(b.cfg.my, Cut(p))))
    ensures Step(a, Receive(Heard(a.cfg, a.peer, Emitted(b, b'))), a')
    ensures if Cut(p) == [] then a' == a else OnlyDelivers(a, a', Cut(p))
  {
    OneHeard(b, s);
    b' := EchoGoesOut(b, p);
    OneCall(b, Handed(s.frame), b');
    CutOnce(p);
    OneHeard(a, Bare(b, TestFrame(b.cfg.my, Cut(p))));
    a' := EchoArrives(a, b.cfg.my, Cut(p));
    OneCall(a, Handed(TestFrame(b.cfg.my, Cut(p))), a');
  }
}

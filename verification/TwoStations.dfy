/** Two connected stations over channels that keep order but lose frames: what each has delivered is a prefix
    of what the other has accepted, and no N(R) is ever refused.
  */
module TwoStations {
  import opened Crc
  import opened Frame
  import opened Link
  import opened Runs
  import opened Epochs
  import opened Replay
  import opened Emission
  import Modular

  // ---------------------------------------------------------------------------------------------
  // What is in flight
  // ---------------------------------------------------------------------------------------------

  /** A frame on its way to a station that has delivered r payloads, from one that has accepted these. */
  predicate Carries(s: Sent, accepted: seq<Payload>, r: nat) {
    && s.Sent? && r <= s.top <= |accepted|
    && (s.frame.control.I? ==> BearsPayload(s, accepted))
  }

  /** The same frame's N(R) lies between what its receiver has seen acknowledged and what its sender has
      delivered. */
  predicate Acknowledges(s: Sent, acked: int, delivered: nat) {
    s.Sent? && acked <= s.nr <= delivered && BearsCount(s)
  }

  /** Numbers never go back along a channel. */
  predicate Ordered(s: Sent, t: Sent) { s.Sent? && t.Sent? && s.top <= t.top && s.nr <= t.nr }

  predicate InOrder(ch: seq<Sent>) { forall j, k :: 0 <= j < k < |ch| ==> Ordered(ch[j], ch[k]) }

  /** The frames from x to y. */
  predicate Flight(x: Sequence, y: Sequence, xy: seq<Sent>) {
    && InOrder(xy)
    && (forall k :: 0 <= k < |xy| ==> Carries(xy[k], x.accepted, |y.received|))
    && (forall k :: 0 <= k < |xy| ==> Acknowledges(xy[k], Acked(y), |x.received|))
  }

  /** What x has delivered is a prefix of what y has accepted, and no less than y knows of. */
  predicate Follows(x: Sequence, y: Sequence) { x.received <= y.accepted && Acked(y) <= |x.received| }

  predicate Agree(x: Sequence, y: Sequence, xy: seq<Sent>, yx: seq<Sent>) {
    && Follows(x, y) && Follows(y, x) && Flight(x, y, xy) && Flight(y, x, yx)
  }

  function Without(ch: seq<Sent>, k: nat): seq<Sent>
    requires k < |ch|
  {
    ch[..k] + ch[k + 1..]
  }

  lemma LossKeepsFlight(x: Sequence, y: Sequence, xy: seq<Sent>, k: nat)
    requires Flight(x, y, xy) && k < |xy|
    ensures Flight(x, y, Without(xy, k))
  {
    var ch := Without(xy, k);
    forall j | 0 <= j < |ch|
      ensures Carries(ch[j], x.accepted, |y.received|) && Acknowledges(ch[j], Acked(y), |x.received|)
    {
      assert ch[j] == xy[if j < k then j else j + 1];
    }
    forall i, j | 0 <= i < j < |ch| ensures Ordered(ch[i], ch[j]) {
      assert ch[i] == xy[if i < k then i else i + 1];
      assert ch[j] == xy[if j < k then j else j + 1];
    }
  }

  /** A station sends: the channel away from it grows by frames that are true of its new numbers. */
  lemma SendingKeepsFlight(x: Sequence, x': Sequence, y: Sequence, xy: seq<Sent>, more: seq<Sent>)
    requires Flight(x, y, xy) && x.accepted <= x'.accepted && x.received <= x'.received
    requires |y.received| <= |x'.accepted| && Acked(y) <= |x'.received|
    requires forall k :: 0 <= k < |more| ==> True(more[k], x')
    ensures Flight(x', y, xy + more)
  {
    var ch := xy + more;
    forall j | 0 <= j < |ch|
      ensures Carries(ch[j], x'.accepted, |y.received|) && Acknowledges(ch[j], Acked(y), |x'.received|)
    {
      if j < |xy| {
        assert Carries(xy[j], x.accepted, |y.received|) && Acknowledges(xy[j], Acked(y), |x.received|);
      } else {
        assert True(more[j - |xy|], x');
      }
    }
    forall i, j | 0 <= i < j < |ch| ensures Ordered(ch[i], ch[j]) {
      if j < |xy| {
        assert Ordered(xy[i], xy[j]);
      } else if i < |xy| {
        assert Carries(xy[i], x.accepted, |y.received|) && Acknowledges(xy[i], Acked(y), |x.received|);
        assert True(more[j - |xy|], x');
      } else {
        assert True(more[i - |xy|], x') && True(more[j - |xy|], x');
      }
    }
  }

  // ---------------------------------------------------------------------------------------------
  // The modulo-8 tests are exact
  // ---------------------------------------------------------------------------------------------

  /** Of a frame that arrives, the true index is no further than a window from the true V(R). */
  lemma IndexIsNear(x: Sequence, y: Sequence, s: Sent)
    requires Sequenced(y) && Follows(x, y) && Carries(s, y.accepted, |x.received|) && s.frame.control.I?
    ensures |x.received| - 7 <= s.ns <= |x.received| + 6
  {}

  lemma NearRemainders(i: nat, r: nat)
    requires r - 7 <= i <= r + 6 && i % MOD8 == r % MOD8
    ensures i == r
  {}

  /** The test N(S) = V(R) accepts exactly the payload that is next. */
  lemma NsTestIsExact(x: Sequence, y: Sequence, s: Sent)
    requires Sequenced(x) && Sequenced(y) && Follows(x, y)
    requires Carries(s, y.accepted, |x.received|) && s.frame.control.I?
    ensures s.frame.control.ns == x.vr <==> s.ns == |x.received|
  {
    IndexIsNear(x, y, s);
    if s.frame.control.ns == x.vr {
      NearRemainders(s.ns, |x.received|);
    }
  }

  lemma AheadOfCount(vs: Mod8, va: Mod8, s: nat, n: nat)
    requires vs == s % MOD8 && s - Ahead(vs, va) <= n <= s
    ensures Ahead(n % MOD8, va) == n - (s - Ahead(vs, va)) <= Ahead(vs, va)
  {}

  /** N(R) of a frame that arrives is valid, and V(A) moves to exactly what it stands for. */
  lemma NrTestPasses(x: Sequence, y: Sequence, s: Sent)
    requires Sequenced(x) && Follows(y, x) && Acknowledges(s, Acked(x), |y.received|) && !s.frame.control.U?
    ensures NrIsValid(x, s.frame.control.nr)
    ensures Sequenced(x.(va := s.frame.control.nr)) && Acked(x.(va := s.frame.control.nr)) == s.nr
  {
    AheadOfCount(x.vs, x.va, |x.accepted|, s.nr);
    AckKeeps(x, s.frame.control.nr);
  }

  // ---------------------------------------------------------------------------------------------
  // A frame arrives
  // ---------------------------------------------------------------------------------------------

  /** What is behind the head of a channel was sent no earlier than the head. */
  lemma BehindHead(x: Sequence, y: Sequence, yx: seq<Sent>, acked: int, r: nat)
    requires yx != [] && Flight(y, x, yx) && acked <= yx[0].nr && r <= yx[0].top
    ensures InOrder(yx[1..])
    ensures forall k :: 0 <= k < |yx[1..]| ==> Carries(yx[1..][k], y.accepted, r)
    ensures forall k :: 0 <= k < |yx[1..]| ==> Acknowledges(yx[1..][k], acked, |y.received|)
  {
    var ch := yx[1..];
    forall k | 0 <= k < |ch| ensures Carries(ch[k], y.accepted, r) && Acknowledges(ch[k], acked, |y.received|) {
      assert ch[k] == yx[k + 1] && Ordered(yx[0], yx[k + 1]);
      assert Carries(yx[k + 1], y.accepted, |x.received|) && Acknowledges(yx[k + 1], Acked(x), |y.received|);
    }
    forall j, k | 0 <= j < k < |ch| ensures Ordered(ch[j], ch[k]) {
      assert Ordered(yx[j + 1], yx[k + 1]);
    }
  }

  /** Taking the next payload keeps to the peer's order. */
  lemma TakingFollows(x: Sequence, y: Sequence, s: Sent)
    requires Sequenced(x) && Sequenced(y) && Follows(x, y)
    requires Carries(s, y.accepted, |x.received|) && s.frame.control.I? && s.frame.control.ns == x.vr
    ensures x.received + [s.frame.info] <= y.accepted && |x.received| + 1 <= s.top
  {
    NsTestIsExact(x, y, s);
  }

  lemma ArrivalAgrees(x: Sequence, y: Sequence, xy: seq<Sent>, yx: seq<Sent>)
    requires Sequenced(x) && Sequenced(y) && Agree(x, y, xy, yx) && yx != []
    ensures Follows(SequenceAfter(Connected, x, yx[0].frame), y) && Follows(y, SequenceAfter(Connected, x, yx[0].frame))
    ensures Flight(y, SequenceAfter(Connected, x, yx[0].frame), yx[1..])
    ensures SequenceAfter(Connected, x, yx[0].frame).accepted == x.accepted
    ensures x.received <= SequenceAfter(Connected, x, yx[0].frame).received
  {
    var s := yx[0];
    assert Carries(s, y.accepted, |x.received|) && Acknowledges(s, Acked(x), |y.received|);
    match s.frame.control {
      case I(ns, nr, pf) =>
        NrTestPasses(x, y, s);
        if ns == x.vr {
          TakingFollows(x, y, s);
          TakeKeeps(x.(va := nr), s.frame.info);
          BehindHead(x, y, yx, s.nr, |x.received| + 1);
        } else {
          BehindHead(x, y, yx, s.nr, |x.received|);
        }
      case S(kind, nr, pf) =>
        NrTestPasses(x, y, s);
        BehindHead(x, y, yx, s.nr, |x.received|);
      case U(_, _) =>
        BehindHead(x, y, yx, Acked(x), |x.received|);
    }
  }

  // ---------------------------------------------------------------------------------------------
  // What a station hears
  // ---------------------------------------------------------------------------------------------

  predicate Knows(my: Octet, peer: Octet, address: Octet) { address == my || address == peer || address == BROADCAST }

  /** The receiver drops frames for other addresses, and frames that its buffer does not take. */
  predicate Hears(cfg: Config, peer: Octet, s: Sent) {
    s.Sent? && Knows(cfg.my, peer, s.frame.address) && |s.frame.info| + MIN_FRAME_LEN <= cfg.rxCapacity
  }

  /** The frames that it hears, as it hands them on. */
  function Heard(cfg: Config, peer: Octet, ch: seq<Sent>): seq<Frame> {
    if ch == [] then []
    else if Hears(cfg, peer, ch[|ch| - 1]) then Heard(cfg, peer, ch[..|ch| - 1]) + [Handed(ch[|ch| - 1].frame)]
    else Heard(cfg, peer, ch[..|ch| - 1])
  }

  /** Of these payloads, all that a receive buffer takes are handed on whole. */
  predicate Whole(rxCapacity: nat, accepted: seq<Payload>) {
    forall i :: 0 <= i < |accepted| && |accepted[i]| + MIN_FRAME_LEN <= rxCapacity ==> |accepted[i]| < 0x1_0000
  }

  /** Within a call: x may have a replay due, y rests. */
  predicate Between(x: Link, y: Sequence, xy: seq<Sent>, yx: seq<Sent>) {
    && Inside(x) && ReplayOk(x) && x.state.Connected? && Sequenced(y) && Agree(x.q, y, xy, yx)
    && Whole(x.cfg.rxCapacity, y.accepted)
  }

  /** What a station handed to `on_send` between two states. */
  function Emitted(l: Link, l': Link): seq<Sent> {
    if l.log.out <= l'.log.out then l'.log.out[|l.log.out|..] else []
  }

  lemma EmittedIsTrue(l: Link, l': Link)
    requires Emits(l.log.out, l'.log.out, l'.q)
    ensures forall k :: 0 <= k < |Emitted(l, l')| ==> True(Emitted(l, l')[k], l'.q)
  {
    forall k | 0 <= k < |Emitted(l, l')| ensures True(Emitted(l, l')[k], l'.q) {
      assert True(l'.log.out[|l.log.out| + k], l'.q);
    }
  }

  lemma HeadIsUnderstood(x: Sequence, y: Sequence, xy: seq<Sent>, yx: seq<Sent>)
    requires Sequenced(x) && Sequenced(y) && Agree(x, y, xy, yx) && yx != []
    ensures yx[0].Sent?
    ensures var c := yx[0].frame.control; if c.U? then IsDatagram(c.code) else NrIsValid(x, c.nr)
  {
    assert Acknowledges(yx[0], Acked(x), |y.received|);
    if !yx[0].frame.control.U? {
      NrTestPasses(x, y, yx[0]);
    }
  }

  lemma DatagramsResetNothing(code: Octet, pf: bool)
    requires IsDatagram(code)
    ensures !ResetBy(Connected, code, pf)
  {}

  /** What is handed on of a frame, as far as sequence numbers and payloads go, is the frame. */
  predicate StandsFor(g: Frame, f: Frame) { g.control == f.control && (f.control.I? ==> g.info == f.info) }

  lemma SameSequence(x: Sequence, g: Frame, f: Frame)
    requires StandsFor(g, f)
    ensures SequenceAfter(Connected, x, g) == SequenceAfter(Connected, x, f)
  {}

  lemma HeadStands(x: Link, y: Sequence, xy: seq<Sent>, yx: seq<Sent>)
    requires Between(x, y, xy, yx) && yx != [] && Hears(x.cfg, x.peer, yx[0])
    ensures StandsFor(Handed(yx[0].frame), yx[0].frame)
  {
    assert Carries(yx[0], y.accepted, |x.q.received|);
    if yx[0].frame.control.I? {
      assert Cut(yx[0].frame.info) == yx[0].frame.info;
    }
  }

  lemma OneArrival(x: Link, g: Frame, y: Sequence, xy: seq<Sent>, yx: seq<Sent>)
    requires Between(x, y, xy, yx) && yx != [] && yx[0].Sent? && StandsFor(g, yx[0].frame)
    ensures x.log.out <= Dispatch(x, g).log.out
    ensures Between(Dispatch(x, g), y, xy + Emitted(x, Dispatch(x, g)), yx[1..])
    ensures !Resets(x.state, g.control)
  {
    HeadIsUnderstood(x.q, y, xy, yx);
    if g.control.U? {
      DatagramsResetNothing(g.control.code, g.control.pf);
    }
    DispatchEmits(x, g);
    DispatchSequence(x, g);
    DispatchBookkeeping(x, g);
    DispatchKeepsInside(x, g);
    DispatchKeepsReplayOk(x, g);
    SameSequence(x.q, g, yx[0].frame);
    ArrivalAgrees(x.q, y, xy, yx);
    EmittedIsTrue(x, Dispatch(x, g));
    SendingKeepsFlight(x.q, Dispatch(x, g).q, y, xy, Emitted(x, Dispatch(x, g)));
  }

  // ---------------------------------------------------------------------------------------------
  // A call of data_in takes any number of frames
  // ---------------------------------------------------------------------------------------------

  function Arrived(x: Link, ch: seq<Sent>): Link { DispatchAll(x, Heard(x.cfg, x.peer, ch)) }

  lemma ArrivedOneMore(x: Link, ch: seq<Sent>, s: Sent)
    ensures Arrived(x, ch + [s]) ==
      if Hears(x.cfg, x.peer, s) then Dispatch(Arrived(x, ch), Handed(s.frame)) else Arrived(x, ch)
  {
    assert (ch + [s])[..|ch|] == ch;
    var heard := Heard(x.cfg, x.peer, ch);
    assert s.Sent? ==> (heard + [Handed(s.frame)])[..|heard|] == heard;
  }

  lemma EmittedTwice(l: Link, m: Link, l': Link)
    requires l.log.out <= m.log.out <= l'.log.out
    ensures Emitted(l, l') == Emitted(l, m) + Emitted(m, l')
  {}

  /** Nothing resets while x takes frames. */
  predicate Undisturbed(x: Link, x': Link) {
    x'.epoch == x.epoch && x'.cfg == x.cfg && x'.peer == x.peer && x.log.out <= x'.log.out
  }

  lemma EmittedAppends(xy: seq<Sent>, l: Link, m: Link, l': Link)
    requires l.log.out <= m.log.out <= l'.log.out
    ensures xy + Emitted(l, m) + Emitted(m, l') == xy + Emitted(l, l')
  {
    EmittedTwice(l, m, l');
  }

  lemma ArrivalDisturbsNothing(x: Link, m: Link, g: Frame, y: Sequence, xy: seq<Sent>, yx: seq<Sent>)
    requires Undisturbed(x, m) && Between(m, y, xy, yx) && yx != [] && yx[0].Sent? && StandsFor(g, yx[0].frame)
    ensures Undisturbed(x, Dispatch(m, g))
  {
    OneArrival(m, g, y, xy, yx);
    DispatchBookkeeping(m, g);
  }

  lemma LastArrival(x: Link, m: Link, g: Frame, y: Sequence, xy: seq<Sent>, yx: seq<Sent>)
    requires Undisturbed(x, m) && Between(m, y, xy + Emitted(x, m), yx)
    requires yx != [] && yx[0].Sent? && StandsFor(g, yx[0].frame)
    ensures Undisturbed(x, Dispatch(m, g))
    ensures Between(Dispatch(m, g), y, xy + Emitted(x, Dispatch(m, g)), yx[1..])
  {
    ArrivalDisturbsNothing(x, m, g, y, xy + Emitted(x, m), yx);
    OneArrival(m, g, y, xy + Emitted(x, m), yx);
    EmittedAppends(xy, x, m, Dispatch(m, g));
  }

  lemma LastUnheard(m: Link, y: Sequence, xy: seq<Sent>, yx: seq<Sent>)
    requires Between(m, y, xy, yx) && yx != []
    ensures Between(m, y, xy, yx[1..])
  {
    LossKeepsFlight(y, m.q, yx, 0);
    assert Without(yx, 0) == yx[1..];
  }

  lemma NextArrives(x: Link, m: Link, y: Sequence, xy: seq<Sent>, s: Sent, yx: seq<Sent>)
    requires Undisturbed(x, m) && Between(m, y, xy + Emitted(x, m), yx) && yx != [] && s == yx[0]
    ensures var m' := if Hears(x.cfg, x.peer, s) then Dispatch(m, Handed(s.frame)) else m;
      Undisturbed(x, m') && Between(m', y, xy + Emitted(x, m'), yx[1..])
  {
    if Hears(x.cfg, x.peer, s) {
      HeadStands(m, y, xy + Emitted(x, m), yx);
      LastArrival(x, m, Handed(s.frame), y, xy, yx);
    } else {
      LastUnheard(m, y, xy + Emitted(x, m), yx);
    }
  }

  lemma {:induction false} ArrivalsAgree(x: Link, y: Sequence, xy: seq<Sent>, yx: seq<Sent>, n: nat)
    requires Between(x, y, xy, yx) && n <= |yx|
    ensures Undisturbed(x, Arrived(x, yx[..n]))
    ensures Between(Arrived(x, yx[..n]), y, xy + Emitted(x, Arrived(x, yx[..n])), yx[n..])
    decreases n
  {
    if n == 0 {
      assert yx[0..] == yx && xy + Emitted(x, x) == xy;
    } else {
      ArrivalsAgree(x, y, xy, yx, n - 1);
      assert yx[..n] == yx[..n - 1] + [yx[n - 1]] && yx[n - 1..][1..] == yx[n..];
      NextArrives(x, Arrived(x, yx[..n - 1]), y, xy, yx[n - 1], yx[n - 1..]);
      ArrivedOneMore(x, yx[..n - 1], yx[n - 1]);
    }
  }

  lemma FlushAgrees(x: Link, m: Link, y: Sequence, xy: seq<Sent>, yx: seq<Sent>)
    requires Undisturbed(x, m) && Between(m, y, xy + Emitted(x, m), yx)
    ensures ReplayDefined(m) && Undisturbed(x, Flush(m)) && Invariant(Flush(m)) && Flush(m).state.Connected?
    ensures Agree(Flush(m).q, y, xy + Emitted(x, Flush(m)), yx)
  {
    FlushEmits(m);
    FlushKeepsInvariant(m);
    EmittedIsTrue(m, Flush(m));
    SendingKeepsFlight(m.q, m.q, y, xy + Emitted(x, m), Emitted(m, Flush(m)));
    EmittedAppends(xy, x, m, Flush(m));
  }

  // ---------------------------------------------------------------------------------------------
  // The two stations
  // ---------------------------------------------------------------------------------------------

  /** Two stations and the frames on their way: ab from a to b, ba from b to a. */
  datatype System = System(a: Link, b: Link, ab: seq<Sent>, ba: seq<Sent>)

  function Swap(s: System): System { System(s.b, s.a, s.ba, s.ab) }

  /** At one station: the user or a timer calls, one call of `data_in` takes the next n frames, or a frame on
      its way to the station is lost. */
  datatype Move = Own(call: Call) | Arrive(n: nat) | Lose(k: nat)

  /** Calls that stay within the connection: link management and the last retry end it. */
  predicate StaysConnected(l: Link, c: Call) {
    || c.Transmit? || c.Ui? || c.Test? || c.T2Expiry? || c.Busy?
    || (c.T1Expiry? && !RetriesExhausted(CountRetry(l)))
  }

  predicate Possible(s: System, m: Move) {
    match m
    case Own(call) => StaysConnected(s.a, call) && Allowed(s.a, call)
    case Arrive(n) => n <= |s.ba| && Allowed(s.a, Receive(Heard(s.a.cfg, s.a.peer, s.ba[..n])))
    case Lose(k) => k < |s.ba|
  }

  function After(s: System, m: Move): System
    requires Possible(s, m)
  {
    match m
    case Own(call) => s.(a := Do(s.a, call), ab := s.ab + Emitted(s.a, Do(s.a, call)))
    case Arrive(n) =>
      var a := Do(s.a, Receive(Heard(s.a.cfg, s.a.peer, s.ba[..n])));
      System(a, s.b, s.ab + Emitted(s.a, a), s.ba[n..])
    case Lose(k) => s.(ba := Without(s.ba, k))
  }

  /** A move of a, or with the roles changed a move of b. */
  predicate Next(s: System, s': System, atA: bool, m: Move) {
    if atA then Possible(s, m) && s' == After(s, m)
    else Possible(Swap(s), m) && Swap(s') == After(Swap(s), m)
  }

  predicate Opened(l: Link) { l.state.Connected? && Fresh(l) && !l.pending && |l.q.slots| == l.cfg.slotCount <= 7 }

  /** Both stations connected and freshly reset, and nothing on its way. */
  predicate Opening(s: System) { Opened(s.a) && Opened(s.b) && s.ab == s.ba == [] }

  predicate Ready(l: Link) { Invariant(l) && l.state.Connected? }

  /** No payload of x is longer than it may be. */
  predicate Bounded(x: Link) { forall i :: 0 <= i < |x.q.accepted| ==> |x.q.accepted[i]| <= x.cfg.maxInfo }

  /** What y's buffer takes of x's payloads, y hands on whole. */
  predicate FitsLength(x: Config, y: Config) { x.maxInfo < 0x1_0000 || y.rxCapacity < 0x1_0000 + MIN_FRAME_LEN }

  predicate FitBoth(s: System) { FitsLength(s.a.cfg, s.b.cfg) && FitsLength(s.b.cfg, s.a.cfg) }

  predicate Safe(s: System) {
    && Ready(s.a) && Ready(s.b) && Bounded(s.a) && Bounded(s.b) && FitBoth(s)
    && Agree(s.a.q, s.b.q, s.ab, s.ba)
  }

  lemma PayloadsAreWhole(x: Link, y: Config)
    requires Bounded(x) && FitsLength(x.cfg, y)
    ensures Whole(y.rxCapacity, x.q.accepted)
  {}

  lemma OpeningIsSafe(s: System)
    requires Opening(s) && FitBoth(s)
    ensures Safe(s)
  {}

  lemma SafeBothWays(s: System)
    ensures Safe(Swap(s)) <==> Safe(s)
  {}

  lemma TransmissionAgrees(l: Link, p: Payload, y: Sequence, xy: seq<Sent>, yx: seq<Sent>)
    requires Ready(l) && RingSized(l) && Agree(l.q, y, xy, yx)
    ensures Undisturbed(l, TransmitI(l, p)) && Ready(TransmitI(l, p)) && (Bounded(l) ==> Bounded(TransmitI(l, p)))
    ensures Agree(TransmitI(l, p).q, y, xy + Emitted(l, TransmitI(l, p)), yx)
  {
    TransmitEmits(l, p);
    TransmitKeepsInvariant(l, p);
    TransmissionAdvances(l, p);
    EmittedIsTrue(l, TransmitI(l, p));
    SendingKeepsFlight(l.q, TransmitI(l, p).q, y, xy, Emitted(l, TransmitI(l, p)));
    TransmissionKeepsPeer(l, p);
    if Bounded(l) {
      TransmissionStaysBounded(l, p);
    }
  }

  lemma TransmissionStaysBounded(l: Link, p: Payload)
    requires RingSized(l) && Bounded(l)
    ensures Bounded(TransmitI(l, p))
  {}

  lemma TransmissionKeepsPeer(l: Link, p: Payload)
    requires RingSized(l)
    ensures TransmitI(l, p).cfg == l.cfg && TransmitI(l, p).peer == l.peer && TransmitI(l, p).state == l.state
    ensures TransmitI(l, p).q.received == l.q.received && TransmitI(l, p).epoch == l.epoch
  {}

  /** The calls that send no I-frame leave the sequence numbers alone. */
  lemma OtherCallEmits(l: Link, c: Call)
    requires Ready(l) && StaysConnected(l, c) && Allowed(l, c) && !c.Transmit?
    ensures Emits(l.log.out, Do(l, c).log.out, Do(l, c).q) && Do(l, c).q == l.q
  {
    match c
    case Ui(address, p) => DatagramsEmit(l, address, p);
    case Test(address, p) => DatagramsEmit(l, address, p);
    case T1Expiry => T1Emits(l);
    case T2Expiry => T2Emits(l);
    case Busy(busy) => BusyEmits(l, busy);
  }

  predicate Stays(l: Link, l': Link) {
    l'.cfg == l.cfg && l'.peer == l.peer && l'.state == l.state && l'.epoch == l.epoch
  }

  lemma T1Stays(l: Link)
    requires !RetriesExhausted(CountRetry(l))
    ensures Stays(l, T1Expired(l))
  {}

  lemma AnswersStay(l: Link, busy: bool)
    ensures Stays(l, T2Expired(l)) && Stays(l, SetLocalBusy(l, busy))
  {}

  lemma DatagramsStay(l: Link, address: Octet, p: Payload)
    ensures Stays(l, TransmitUi(l, address, p)) && Stays(l, TransmitTest(l, address, p))
  {}

  lemma OtherCallStays(l: Link, c: Call)
    requires StaysConnected(l, c) && Allowed(l, c) && !c.Transmit?
    ensures Stays(l, Do(l, c))
  {
    match c
    case Ui(address, p) => DatagramsStay(l, address, p);
    case Test(address, p) => DatagramsStay(l, address, p);
    case T1Expiry => T1Stays(l);
    case T2Expiry => AnswersStay(l, false);
    case Busy(busy) => AnswersStay(l, busy);
  }

  lemma OwnCallAgrees(l: Link, c: Call, y: Sequence, xy: seq<Sent>, yx: seq<Sent>)
    requires Ready(l) && StaysConnected(l, c) && Allowed(l, c) && Agree(l.q, y, xy, yx)
    ensures Undisturbed(l, Do(l, c)) && Ready(Do(l, c)) && (Bounded(l) ==> Bounded(Do(l, c)))
    ensures Agree(Do(l, c).q, y, xy + Emitted(l, Do(l, c)), yx)
  {
    if c.Transmit? {
      TransmissionAgrees(l, c.payload, y, xy, yx);
    } else {
      StepKeepsInvariant(l, c);
      OtherCallEmits(l, c);
      OtherCallStays(l, c);
      EmittedIsTrue(l, Do(l, c));
      SendingKeepsFlight(l.q, l.q, y, xy, Emitted(l, Do(l, c)));
    }
  }

  lemma ArrivalMoveAgrees(l: Link, n: nat, y: Sequence, xy: seq<Sent>, yx: seq<Sent>)
    requires Ready(l) && Sequenced(y) && Agree(l.q, y, xy, yx) && n <= |yx| && Whole(l.cfg.rxCapacity, y.accepted)
    ensures ReplayDefined(Arrived(l, yx[..n]))
    ensures Undisturbed(l, Flush(Arrived(l, yx[..n]))) && Ready(Flush(Arrived(l, yx[..n])))
    ensures Flush(Arrived(l, yx[..n])).q.accepted == l.q.accepted
    ensures Agree(Flush(Arrived(l, yx[..n])).q, y, xy + Emitted(l, Flush(Arrived(l, yx[..n]))), yx[n..])
  {
    ArrivalsAgree(l, y, xy, yx, n);
    FlushAgrees(l, Arrived(l, yx[..n]), y, xy, yx[n..]);
    ReceiptsAdvance(l, Heard(l.cfg, l.peer, yx[..n]));
  }

  /** A call of `data_in` is always within bounds here: the guard on Arrive shuts nothing out. */
  lemma ArrivalIsPossible(s: System, n: nat)
    requires Safe(s) && n <= |s.ba|
    ensures Possible(s, Arrive(n))
  {
    PayloadsAreWhole(s.b, s.a.cfg);
    ArrivalMoveAgrees(s.a, n, s.b.q, s.ab, s.ba);
  }

  lemma MoveKeepsSafe(s: System, m: Move)
    requires Safe(s) && Possible(s, m)
    ensures Safe(After(s, m)) && After(s, m).b == s.b
    ensures After(s, m).a.cfg == s.a.cfg && After(s, m).a.peer == s.a.peer
  {
    PayloadsAreWhole(s.b, s.a.cfg);
    match m
    case Own(call) => OwnCallAgrees(s.a, call, s.b.q, s.ab, s.ba);
    case Arrive(n) => ArrivalMoveAgrees(s.a, n, s.b.q, s.ab, s.ba);
    case Lose(k) => LossKeepsFlight(s.b.q, s.a.q, s.ba, k);
  }

  lemma NextKeepsSafe(s: System, s': System, atA: bool, m: Move)
    requires Safe(s) && Next(s, s', atA, m)
    ensures Safe(s')
  {
    if atA {
      MoveKeepsSafe(s, m);
    } else {
      SafeBothWays(s);
      MoveKeepsSafe(Swap(s), m);
      SafeBothWays(s');
    }
  }

  // ---------------------------------------------------------------------------------------------
  // Whole histories
  // ---------------------------------------------------------------------------------------------

  datatype Action = Action(atA: bool, move: Move)

  predicate NextAt(ss: seq<System>, actions: seq<Action>, k: nat)
    requires k < |actions| && k + 1 < |ss|
  {
    Next(ss[k], ss[k + 1], actions[k].atA, actions[k].move)
  }

  /** Any interleaving of the two stations' calls, arrivals and losses, from a fresh connection on. */
  predicate IsHistory(ss: seq<System>, actions: seq<Action>) {
    && |ss| == |actions| + 1 && Opening(ss[0])
    && forall k: nat :: k < |actions| ==> NextAt(ss, actions, k)
  }

  lemma {:induction false} HistoriesAreSafe(ss: seq<System>, actions: seq<Action>, k: nat)
    requires IsHistory(ss, actions) && k < |ss| && FitBoth(ss[0])
    ensures Safe(ss[k])
    decreases k
  {
    if k == 0 {
      OpeningIsSafe(ss[0]);
    } else {
      HistoriesAreSafe(ss, actions, k - 1);
      assert NextAt(ss, actions, k - 1);
      NextKeepsSafe(ss[k - 1], ss[k], actions[k - 1].atA, actions[k - 1].move);
    }
  }

  /** At either end what has been delivered is a prefix of what the other end has accepted. */
  predicate Prefixes(s: System) { s.b.q.received <= s.a.q.accepted && s.a.q.received <= s.b.q.accepted }

  /** In true counts: V(A) <= delivered at the other end <= V(S) <= V(A) + 7. */
  predicate InWindow(x: Sequence, y: Sequence) {
    Acked(x) <= |y.received| <= |x.accepted| <= Acked(x) + 7
  }

  /** Safety end to end: in every reachable state the payloads delivered from I-frames at either end are a
      prefix of those accepted at the other, in order, none lost in between, none twice. */
  lemma DeliveredIsPrefixOfAccepted(ss: seq<System>, actions: seq<Action>, k: nat)
    requires IsHistory(ss, actions) && k < |ss| && FitBoth(ss[0])
    ensures Prefixes(ss[k])
    ensures InWindow(ss[k].a.q, ss[k].b.q) && InWindow(ss[k].b.q, ss[k].a.q)
  {
    HistoriesAreSafe(ss, actions, k);
  }

  /** The frame is a UI or TEST frame, or its N(R) passes validate_nr, and if it is an I-frame its N(S) is V(R)
      just if it carries the payload that is next. */
  predicate Understood(x: Sequence, s: Sent) {
    s.Sent? && match s.frame.control
      case I(ns, nr, _) => NrIsValid(x, nr) && (ns == x.vr <==> s.ns == |x.received|)
      case S(_, nr, _) => NrIsValid(x, nr)
      case U(code, _) => code == U_UI || code == U_TEST
  }

  lemma FlightIsUnderstood(x: Sequence, y: Sequence, xy: seq<Sent>, yx: seq<Sent>, j: nat)
    requires Sequenced(x) && Sequenced(y) && Agree(x, y, xy, yx) && j < |yx|
    ensures Understood(x, yx[j])
  {
    assert Carries(yx[j], y.accepted, |x.received|) && Acknowledges(yx[j], Acked(x), |y.received|);
    if !yx[j].frame.control.U? {
      NrTestPasses(x, y, yx[j]);
    }
    if yx[j].frame.control.I? {
      NsTestIsExact(x, y, yx[j]);
    }
  }

  /** In every reachable state both stations are connected, and every frame on its way either way is understood as
      it was meant: no N(R) will be refused, no N(S) mistaken, and no FRMR is on its way. */
  lemma ArrivalsAreUnderstood(ss: seq<System>, actions: seq<Action>, k: nat)
    requires IsHistory(ss, actions) && k < |ss| && FitBoth(ss[0])
    ensures ss[k].a.state.Connected? && ss[k].b.state.Connected?
    ensures forall j :: 0 <= j < |ss[k].ba| ==> Understood(ss[k].a.q, ss[k].ba[j])
    ensures forall j :: 0 <= j < |ss[k].ab| ==> Understood(ss[k].b.q, ss[k].ab[j])
  {
    HistoriesAreSafe(ss, actions, k);
    forall j | 0 <= j < |ss[k].ba| ensures Understood(ss[k].a.q, ss[k].ba[j]) {
      FlightIsUnderstood(ss[k].a.q, ss[k].b.q, ss[k].ab, ss[k].ba, j);
    }
    forall j | 0 <= j < |ss[k].ab| ensures Understood(ss[k].b.q, ss[k].ab[j]) {
      FlightIsUnderstood(ss[k].b.q, ss[k].a.q, ss[k].ba, ss[k].ab, j);
    }
  }

  // ---------------------------------------------------------------------------------------------
  // Payloads that do not fit 16 bits
  // ---------------------------------------------------------------------------------------------

  /** transmit_i takes any payload up to maxInfo, as the geometry checks of init see to. */
  predicate Roomy(l: Link) { l.cfg.slotCount > 0 && l.cfg.slotCapacity >= l.cfg.maxInfo }

  /** Frames from x bear an address that y takes. */
  predicate Addresses(x: Link, y: Link) { Knows(y.cfg.my, y.peer, x.peer) }

  const LONG: Payload := seq(0x1_0000, _ => 0)

  lemma LongIsAccepted(l: Link)
    requires Opened(l) && Roomy(l) && l.cfg.maxInfo >= 0x1_0000
    ensures RingSized(l) && TransmitI(l, LONG).q.accepted == [LONG]
    ensures TransmitI(l, LONG).log.out
      == l.log.out + [Sent(Frame(l.peer, I(0, 0, false), LONG), 0, 0, 1)]
  {}

  lemma EmptyIsTaken(l: Link)
    requires Opened(l)
    ensures HandleI(l, 0, 0, false, []).q.received == [[]] && !HandleI(l, 0, 0, false, []).pending
  {}

  lemma LongArrivesEmpty(l: Link, s: Sent)
    requires Opened(l) && s.Sent? && s.frame.control == I(0, 0, false) && s.frame.info == LONG
    requires Knows(l.cfg.my, l.peer, s.frame.address) && l.cfg.rxCapacity >= 0x1_0000 + MIN_FRAME_LEN
    ensures Heard(l.cfg, l.peer, [s]) == [Handed(s.frame)] && Handed(s.frame).info == []
    ensures DispatchAll(l, [Handed(s.frame)]).q.received == [[]] && !DispatchAll(l, [Handed(s.frame)]).pending
  {
    assert Heard(l.cfg, l.peer, [s][..0]) == [];
    OneDispatch(l, Handed(s.frame));
    EmptyIsTaken(l);
  }

  /** The failing input: one payload of 65536 octets is accepted, and an empty one delivered. */
  lemma LongPayloadIsLost(s: System) returns (s1: System, s2: System)
    requires Opening(s) && Roomy(s.a) && Addresses(s.a, s.b) && !FitsLength(s.a.cfg, s.b.cfg)
    ensures Next(s, s1, true, Own(Transmit(LONG))) && Next(s1, s2, false, Arrive(1))
    ensures s2.a.q.accepted == [LONG] && s2.b.q.received == [[]] && !Prefixes(s2)
  {
    LongIsAccepted(s.a);
    s1 := After(s, Own(Transmit(LONG)));
    LongArrivesEmpty(s.b, s1.ab[0]);
    assert s1.ab[..1] == [s1.ab[0]];
    s2 := Swap(After(Swap(s1), Arrive(1)));
    assert s2.a.q.accepted[0] == LONG && s2.b.q.received[0] == [];
  }

  /** Whatever happens from this opening on, the delivered payloads are prefixes of the accepted ones. */
  ghost predicate AlwaysPrefixes(s: System) {
    forall ss: seq<System>, actions: seq<Action>, k: nat ::
      IsHistory(ss, actions) && ss[0] == s && k < |ss| ==> Prefixes(ss[k])
  }

  lemma LongPayloadBreaks(s: System)
    requires Opening(s) && Roomy(s.a) && Addresses(s.a, s.b) && !FitsLength(s.a.cfg, s.b.cfg)
    ensures !AlwaysPrefixes(s)
  {
    var s1, s2 := LongPayloadIsLost(s);
    var actions := [Action(true, Own(Transmit(LONG))), Action(false, Arrive(1))];
    var ss := [s, s1, s2];
    assert NextAt(ss, actions, 0) && NextAt(ss, actions, 1);
    assert IsHistory(ss, actions) && !Prefixes(ss[2]);
  }

  lemma LongPayloadBreaksMirrored(s: System)
    requires Opening(s) && Roomy(s.b) && Addresses(s.b, s.a) && !FitsLength(s.b.cfg, s.a.cfg)
    ensures !AlwaysPrefixes(s)
  {
    var s1, s2 := LongPayloadIsLost(Swap(s));
    var actions := [Action(false, Own(Transmit(LONG))), Action(true, Arrive(1))];
    var ss := [s, Swap(s1), Swap(s2)];
    assert NextAt(ss, actions, 0) && NextAt(ss, actions, 1);
    assert IsHistory(ss, actions) && !Prefixes(ss[2]);
  }

  /** The exact condition, for stations whose I-frames bear an address that the other takes, with windows and slots as
      init checks them: delivery is always a prefix of acceptance if and only if, in each direction, max_info_size is
      below 65536 or the receive buffer does not take a frame with 65536 octets of information. */
  lemma PrefixesExactly(s: System)
    requires Opening(s) && Roomy(s.a) && Roomy(s.b) && Addresses(s.a, s.b) && Addresses(s.b, s.a)
    ensures AlwaysPrefixes(s) <==> FitBoth(s)
  {
    if !FitsLength(s.a.cfg, s.b.cfg) {
      LongPayloadBreaks(s);
    } else if !FitsLength(s.b.cfg, s.a.cfg) {
      LongPayloadBreaksMirrored(s);
    } else {
      forall ss: seq<System>, actions: seq<Action>, k: nat | IsHistory(ss, actions) && ss[0] == s && k < |ss|
        ensures Prefixes(ss[k])
      {
        DeliveredIsPrefixOfAccepted(ss, actions, k);
      }
    }
  }
}

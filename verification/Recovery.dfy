/** The enquiry cycle repairs any loss: T1 expiry, RR with P = 1, RR with F = 1, replay, and an acknowledgement.
  */
module Recovery {
  import opened Crc
  import opened Frame
  import opened Link
  import opened Runs
  import opened Replay
  import opened TwoStations

  function Rr(l: Link, address: Octet, pf: bool): Sent {
    Sent(Frame(address, S(RR, l.q.vr, pf), []), 0, |l.q.received|, |l.q.accepted|)
  }

  lemma OneHeard(x: Link, s: Sent)
    requires Hears(x.cfg, x.peer, s)
    requires s.frame.info == [] && !s.frame.emptied
    ensures Arrived(x, [s]) == Dispatch(x, s.frame) && [s][..1] == [s] && [s][1..] == []
  {
    HandedWhole(s.frame);
    ArrivedOneMore(x, [], s);
    assert [] + [s] == [s];
  }

  lemma OneUnheard(x: Link, s: Sent)
    requires !Hears(x.cfg, x.peer, s)
    ensures Arrived(x, [s]) == x && [s][..1] == [s] && [s][1..] == []
  {
    ArrivedOneMore(x, [], s);
    assert [] + [s] == [s];
  }

  // ---------------------------------------------------------------------------------------------
  // The steps, one station at a time
  // ---------------------------------------------------------------------------------------------

  /** T1 goes off with frames unacknowledged: an RR command with the P bit. */
  lemma EnquiryGoesOut(a: Link)
    requires Ready(a) && !RetriesExhausted(CountRetry(a)) && Acked(a.q) < |a.q.accepted| && !a.flags.localBusy
    ensures T1Expired(a).log.out == a.log.out + [Rr(a, a.peer, true)]
    ensures T1Expired(a).q == a.q && !T1Expired(a).flags.localBusy && T1Expired(a).n2 == CountRetry(a).n2
  {}

  /** The command is answered with the F bit, which stops T2, and triggers nothing. */
  lemma EnquiryIsAnswered(b: Link, nr: Mod8)
    requires Ready(b) && NrIsValid(b.q, nr)
    ensures HandleS(b, b.cfg.my, RR, nr, true).log.out == b.log.out + [Rr(b, b.cfg.my, true)]
    ensures HandleS(b, b.cfg.my, RR, nr, true).q == b.q.(va := nr) && !HandleS(b, b.cfg.my, RR, nr, true).pending
    ensures HandleS(b, b.cfg.my, RR, nr, true).flags.localBusy == b.flags.localBusy
    ensures !HandleS(b, b.cfg.my, RR, nr, true).flags.t2
  {}

  /** The final triggers the replay of all that is still out, and nothing if nothing is. */
  lemma FinalTriggersReplay(a: Link, address: Octet, nr: Mod8)
    requires Ready(a) && NrIsValid(a.q, nr) && address != a.cfg.my
    ensures HandleS(a, address, RR, nr, true).log.out == a.log.out
    ensures HandleS(a, address, RR, nr, true).q == a.q.(va := nr)
    ensures HandleS(a, address, RR, nr, true).flags.localBusy == a.flags.localBusy
    ensures HandleS(a, address, RR, nr, true).pending <==> a.q.vs != nr
    ensures a.q.vs != nr ==> HandleS(a, address, RR, nr, true).retransmitFrom == nr
    ensures HandleS(a, address, RR, nr, true).peer == a.peer
    ensures a.q.vs == nr ==> !HandleS(a, address, RR, nr, true).flags.t1
    ensures HandleS(a, address, RR, nr, true).n2 == a.n2 || HandleS(a, address, RR, nr, true).n2 == 0
  {}

  /** A busy station's enquiry bears its own address, so that its peer takes it for a response. */
  lemma EnquiryIsCommandUnlessBusy(a: Link, b: Link)
    requires Ready(a) && !RetriesExhausted(CountRetry(a)) && Acked(a.q) < |a.q.accepted|
    requires Paired(a, b)
    ensures |T1Expired(a).log.out| == |a.log.out| + 1 && T1Expired(a).log.out[|a.log.out|].Sent?
    ensures IsCommand(b, T1Expired(a).log.out[|a.log.out|].frame.address) <==> !a.flags.localBusy
  {}

  /** And then it is not answered: the cycle needs the enquirer not to be busy. */
  lemma BusyEnquiryIsNotAnswered(b: Link, address: Octet, nr: Mod8)
    requires Ready(b) && NrIsValid(b.q, nr) && !IsCommand(b, address)
    ensures HandleS(b, address, RNR, nr, true).log.out == b.log.out
  {}

  /** A repeated frame that is next is taken in silence, and T2 runs. */
  lemma FrameIsTaken(b: Link, ns: Mod8, nr: Mod8, info: Payload)
    requires NrIsValid(b.q, nr) && ns == b.q.vr && !b.flags.localBusy
    ensures HandleI(b, ns, nr, false, info).log.out == b.log.out
    ensures HandleI(b, ns, nr, false, info).q.received == b.q.received + [info]
    ensures HandleI(b, ns, nr, false, info).flags.t2 && !HandleI(b, ns, nr, false, info).flags.localBusy
    ensures HandleI(b, ns, nr, false, info).pending == b.pending
  {}

  /** An RNR under the station's own address, for so many payloads. */
  predicate IsRnr(s: Sent, address: Octet, nr: nat) {
    s.Sent? && s.frame == Frame(address, S(RNR, nr % MOD8, false), []) && s.nr == nr
  }

  /** A busy station takes it too, and acknowledges it at once with an RNR. */
  lemma FrameIsTakenBusily(b: Link, ns: Mod8, nr: Mod8, info: Payload)
    requires NrIsValid(b.q, nr) && ns == b.q.vr == |b.q.received| % MOD8 && b.flags.localBusy && !b.flags.t2
    ensures HandleI(b, ns, nr, false, info).q.received == b.q.received + [info]
    ensures |HandleI(b, ns, nr, false, info).log.out| == |b.log.out| + 1
    ensures b.log.out <= HandleI(b, ns, nr, false, info).log.out
    ensures IsRnr(HandleI(b, ns, nr, false, info).log.out[|b.log.out|], b.cfg.my, |b.q.received| + 1)
    ensures !HandleI(b, ns, nr, false, info).flags.t2 && HandleI(b, ns, nr, false, info).flags.localBusy
    ensures HandleI(b, ns, nr, false, info).pending == b.pending
  {}

  /** T2 goes off: an RR without the P bit. */
  lemma AcknowledgementGoesOut(b: Link)
    requires !b.flags.localBusy
    ensures T2Expired(b).log.out == b.log.out + [Rr(b, b.peer, false)] && T2Expired(b).q == b.q
    ensures !T2Expired(b).flags.localBusy
  {}

  /** It acknowledges, and so does an RNR; neither is answered or triggers anything. */
  lemma AcknowledgementArrives(a: Link, address: Octet, kind: Supervisory, nr: Mod8)
    requires Inside(a) && NrIsValid(a.q, nr) && (kind == RR || kind == RNR)
    ensures HandleS(a, address, kind, nr, false).log.out == a.log.out
    ensures HandleS(a, address, kind, nr, false).q == a.q.(va := nr)
    ensures HandleS(a, address, kind, nr, false).pending == a.pending
    ensures a.q.vs == nr ==> !HandleS(a, address, kind, nr, false).flags.t1
  {}

  // ---------------------------------------------------------------------------------------------
  // The replay is taken
  // ---------------------------------------------------------------------------------------------

  /** The frames of the replay, from the payload that y needs next to the last one accepted. */
  predicate IsReplay(ch: seq<Sent>, accepted: seq<Payload>, r: nat, address: Octet) {
    && |ch| == |accepted| - r
    && forall k :: 0 <= k < |ch| ==> IsRepeat(ch[k], accepted, r + k, address)
  }

  predicate IsRepeat(s: Sent, accepted: seq<Payload>, i: nat, address: Octet) {
    && s.Sent? && s.frame.control.I? && !s.frame.control.pf && s.frame.address == address
    && s.ns == i < |accepted| && s.frame.info == accepted[i]
  }

  /** The buffer takes all of these payloads. */
  predicate TakesAll(cfg: Config, accepted: seq<Payload>) {
    forall i :: 0 <= i < |accepted| ==> |accepted[i]| + MIN_FRAME_LEN <= cfg.rxCapacity
  }

  /** The k-th frame that b has sent on the way to b' is its RNR for the k-th payload taken. */
  predicate RnrAt(b: Link, b': Link, k: nat)
    requires |b.log.out| + k < |b'.log.out|
  {
    IsRnr(b'.log.out[|b.log.out| + k], b.cfg.my, |b.q.received| + k + 1)
  }

  /** What a station has said that took n frames: nothing, but T2 runs; or an RNR for each. */
  predicate Said(b: Link, b': Link, n: nat) {
    if b.flags.localBusy then
      && !b'.flags.t2 && b.log.out <= b'.log.out && |b'.log.out| == |b.log.out| + n
      && forall k: nat :: k < n ==> RnrAt(b, b', k)
    else b'.log.out == b.log.out && (n > 0 ==> b'.flags.t2)
  }

  /** What taking the first n frames of the replay has done. */
  predicate Took(b: Link, b': Link, accepted: seq<Payload>, n: nat)
    requires |b.q.received| + n <= |accepted|
  {
    && b'.q.received == accepted[..|b.q.received| + n] && !b'.pending
    && b'.flags.localBusy == b.flags.localBusy && Said(b, b', n)
  }

  lemma NextIsTaken(b: Link, m: Link, g: Frame, a: Sequence, yx: seq<Sent>, ab: seq<Sent>, n: nat)
    requires Between(m, a, yx, ab) && ab != [] && m.cfg == b.cfg
    requires |b.q.received| + n < |a.accepted| && Took(b, m, a.accepted, n)
    requires IsRepeat(ab[0], a.accepted, |b.q.received| + n, m.cfg.my) && StandsFor(g, ab[0].frame)
    ensures Took(b, Dispatch(m, g), a.accepted, n + 1)
  {
    HeadIsUnderstood(m.q, a, yx, ab);
    assert Carries(ab[0], a.accepted, |m.q.received|);
    NsTestIsExact(m.q, a, ab[0]);
    if b.flags.localBusy {
      FrameIsTakenBusily(m, g.control.ns, g.control.nr, g.info);
      OneMoreRnr(b, m, Dispatch(m, g), n);
    } else {
      FrameIsTaken(m, g.control.ns, g.control.nr, g.info);
    }
  }

  lemma OneMoreRnr(b: Link, m: Link, m': Link, n: nat)
    requires b.flags.localBusy && Said(b, m, n) && |m.q.received| == |b.q.received| + n && m.cfg == b.cfg
    requires !m'.flags.t2 && m.log.out <= m'.log.out && |m'.log.out| == |m.log.out| + 1
    requires IsRnr(m'.log.out[|m.log.out|], b.cfg.my, |m.q.received| + 1)
    ensures Said(b, m', n + 1)
  {
    forall k: nat | k < n + 1 ensures RnrAt(b, m', k) {
      if k < n {
        assert RnrAt(b, m, k) && m'.log.out[|b.log.out| + k] == m.log.out[|b.log.out| + k];
      }
    }
  }

  lemma LastIsTaken(b: Link, m: Link, a: Sequence, ba: seq<Sent>, s: Sent, rest: seq<Sent>, n: nat)
    requires Undisturbed(b, m) && Between(m, a, ba, rest) && rest != [] && s == rest[0]
    requires |b.q.received| + n < |a.accepted| && Took(b, m, a.accepted, n) && TakesAll(b.cfg, a.accepted)
    requires IsRepeat(s, a.accepted, |b.q.received| + n, b.cfg.my)
    ensures Hears(m.cfg, m.peer, s) && Took(b, Dispatch(m, Handed(s.frame)), a.accepted, n + 1)
  {
    HeadStands(m, a, ba, rest);
    NextIsTaken(b, m, Handed(s.frame), a, ba, rest, n);
  }

  lemma OneMoreIsTaken(b: Link, a: Sequence, ba: seq<Sent>, ab: seq<Sent>, n: nat)
    requires Between(b, a, ba, ab) && n < |ab| && |b.q.received| + n < |a.accepted| && TakesAll(b.cfg, a.accepted)
    requires Took(b, Arrived(b, ab[..n]), a.accepted, n)
    requires IsRepeat(ab[n], a.accepted, |b.q.received| + n, b.cfg.my)
    ensures Took(b, Arrived(b, ab[..n] + [ab[n]]), a.accepted, n + 1)
  {
    ArrivalsAgree(b, a, ba, ab, n);
    assert ab[n..][0] == ab[n];
    LastIsTaken(b, Arrived(b, ab[..n]), a, ba + Emitted(b, Arrived(b, ab[..n])), ab[n], ab[n..], n);
    ArrivedOneMore(b, ab[..n], ab[n]);
  }

  lemma {:induction false} ReplayIsTaken(b: Link, a: Sequence, ba: seq<Sent>, ab: seq<Sent>, n: nat)
    requires Between(b, a, ba, ab) && !b.pending && !b.flags.t2 && n <= |ab| && TakesAll(b.cfg, a.accepted)
    requires IsReplay(ab, a.accepted, |b.q.received|, b.cfg.my)
    ensures Took(b, Arrived(b, ab[..n]), a.accepted, n)
    decreases n
  {
    if n == 0 {
      assert ab[..0] == [];
    } else {
      ReplayIsTaken(b, a, ba, ab, n - 1);
      assert IsRepeat(ab[n - 1], a.accepted, |b.q.received| + (n - 1), b.cfg.my);
      OneMoreIsTaken(b, a, ba, ab, n - 1);
      assert ab[..n] == ab[..n - 1] + [ab[n - 1]];
    }
  }

  /** What a replay that begins at V(A) puts on the line. */
  lemma ReplayStarts(m: Link, r: nat)
    requires Inside(m) && ReplayOk(m) && Acked(m.q) == r
    requires if m.pending then m.retransmitFrom == m.q.va else m.q.va == m.q.vs
    ensures ReplayDefined(m) && IsReplay(Emitted(m, Flush(m)), m.q.accepted, r, m.peer)
  {
    if m.pending {
      ReplayIsFaithful(m);
      ReplayIsSent(m);
      forall k: nat | k < Span(m) ensures IsRepeat(Replayed(m)[k], m.q.accepted, r + k, m.peer) {
        assert Repeats(Replayed(m)[k], m, |m.q.accepted| - Span(m) + k);
      }
    }
  }

  lemma ReplayIsSent(m: Link)
    requires m.pending && ReplayDefined(m)
    ensures Emitted(m, Flush(m)) == Replayed(m)
  {}

  // ---------------------------------------------------------------------------------------------
  // The RNRs of a busy receiver arrive
  // ---------------------------------------------------------------------------------------------

  predicate AreRnrs(ch: seq<Sent>, address: Octet, r: nat) {
    forall k: nat :: k < |ch| ==> IsRnr(ch[k], address, r + k + 1)
  }

  /** So far nothing was sent or triggered, and V(A) stands for what the last RNR said. */
  predicate Quiet(a: Link, a': Link) { a'.log.out == a.log.out && !a'.pending && a'.q.accepted == a.q.accepted }

  lemma RnrArrives(a: Link, m: Link, b: Sequence, ab: seq<Sent>, s: Sent, rest: seq<Sent>, nr: nat)
    requires Undisturbed(a, m) && Between(m, b, ab, rest) && Quiet(a, m) && rest != [] && s == rest[0]
    requires IsRnr(s, a.peer, nr) && a.cfg.rxCapacity >= MIN_FRAME_LEN
    ensures Hears(m.cfg, m.peer, s) && Quiet(a, Dispatch(m, Handed(s.frame)))
    ensures Acked(Dispatch(m, Handed(s.frame)).q) == nr
    ensures Dispatch(m, Handed(s.frame)).q.va == Dispatch(m, Handed(s.frame)).q.vs ==>
      !Dispatch(m, Handed(s.frame)).flags.t1
  {
    HeadStands(m, b, ab, rest);
    HeadIsUnderstood(m.q, b, ab, rest);
    assert Acknowledges(s, Acked(m.q), |b.received|);
    NrTestPasses(m.q, b, s);
    AcknowledgementArrives(m, s.frame.address, RNR, s.frame.control.nr);
  }

  lemma OneMoreRnrArrives(a: Link, b: Sequence, ab: seq<Sent>, ba: seq<Sent>, i: nat, n: nat, nr: nat)
    requires Between(a, b, ab, ba) && n == i + 1 <= |ba| && Quiet(a, Arrived(a, ba[..i]))
    requires IsRnr(ba[i], a.peer, nr) && a.cfg.rxCapacity >= MIN_FRAME_LEN
    ensures var a' := Arrived(a, ba[..n]);
      Quiet(a, a') && Acked(a'.q) == nr && (a'.q.va == a'.q.vs ==> !a'.flags.t1)
  {
    ArrivalsAgree(a, b, ab, ba, i);
    assert ba[i..][0] == ba[i] && ba[..n] == ba[..i] + [ba[i]];
    RnrArrives(a, Arrived(a, ba[..i]), b, ab + Emitted(a, Arrived(a, ba[..i])), ba[i], ba[i..], nr);
    ArrivedOneMore(a, ba[..i], ba[i]);
  }

  lemma {:induction false} RnrsArrive(a: Link, b: Sequence, ab: seq<Sent>, ba: seq<Sent>, r: nat, n: nat)
    requires Between(a, b, ab, ba) && !a.pending && n <= |ba| && AreRnrs(ba, a.peer, r)
    requires a.cfg.rxCapacity >= MIN_FRAME_LEN
    ensures Quiet(a, Arrived(a, ba[..n]))
    ensures n > 0 ==> Acked(Arrived(a, ba[..n]).q) == r + n
    ensures n > 0 && Arrived(a, ba[..n]).q.va == Arrived(a, ba[..n]).q.vs ==> !Arrived(a, ba[..n]).flags.t1
    decreases n
  {
    if n == 0 {
      assert ba[..0] == [];
    } else {
      RnrsArrive(a, b, ab, ba, r, n - 1);
      assert IsRnr(ba[n - 1], a.peer, r + (n - 1) + 1);
      OneMoreRnrArrives(a, b, ab, ba, n - 1, n, r + n);
    }
  }

  // ---------------------------------------------------------------------------------------------
  // The round
  // ---------------------------------------------------------------------------------------------

  /** x has the peer's address, which is not its own. */
  predicate Paired(x: Link, y: Link) { x.peer == y.cfg.my && x.cfg.my != y.cfg.my }

  /** Safe, with the address of b at a, and buffers that take a's payloads at b and supervisory frames at a. */
  predicate Joined(s: System) {
    && Safe(s) && Paired(s.a, s.b)
    && s.b.cfg.rxCapacity >= s.a.cfg.maxInfo + MIN_FRAME_LEN && s.a.cfg.rxCapacity >= MIN_FRAME_LEN
  }

  /** Frames unacknowledged at a, nothing on its way, a not busy, and a retry left. */
  predicate Stalled(s: System) {
    && Joined(s) && s.ab == s.ba == [] && !s.a.flags.localBusy
    && Acked(s.a.q) < |s.a.q.accepted| && !RetriesExhausted(CountRetry(s.a))
  }

  predicate Enquired(s: System) {
    Joined(s) && s.ab == [Rr(s.a, s.a.peer, true)] && s.ba == [] && !s.a.flags.localBusy
  }

  predicate Answered(s: System) {
    && Joined(s) && s.ab == [] && s.ba == [Rr(s.b, s.b.cfg.my, true)] && !s.b.flags.t2 && !s.a.flags.localBusy
  }

  predicate Repeated(s: System) {
    && Joined(s) && IsReplay(s.ab, s.a.q.accepted, |s.b.q.received|, s.b.cfg.my) && s.ba == []
    && !s.b.flags.t2 && !s.a.flags.localBusy
  }

  predicate Delivered(s: System) {
    Joined(s) && s.ab == s.ba == [] && s.b.q.received == s.a.q.accepted && !s.a.flags.localBusy
  }

  predicate Acknowledging(s: System) {
    && Joined(s) && s.ab == [] && s.ba == [Rr(s.b, s.b.peer, false)] && s.b.q.received == s.a.q.accepted
    && !s.a.flags.localBusy
  }

  /** Everything accepted is delivered and acknowledged, and nothing is on its way. */
  predicate Recovered(s: System) {
    && Safe(s) && s.ab == s.ba == [] && s.b.q.received == s.a.q.accepted
    && s.a.q.va == s.a.q.vs && Acked(s.a.q) == |s.a.q.accepted| && !s.a.flags.t1
  }

  /** A move of b, whatever it is, leaves a alone. */
  lemma BMoves(s: System, m: Move) returns (s': System)
    requires Joined(s) && Possible(Swap(s), m)
    ensures Next(s, s', false, m) && Joined(s') && s' == Swap(After(Swap(s), m)) && s'.a == s.a
    ensures s'.b.cfg == s.b.cfg && s'.b.peer == s.b.peer
  {
    SafeBothWays(s);
    MoveKeepsSafe(Swap(s), m);
    SafeBothWays(After(Swap(s), m));
    s' := Swap(After(Swap(s), m));
  }

  lemma AMoves(s: System, m: Move) returns (s': System)
    requires Joined(s) && Possible(s, m)
    ensures Next(s, s', true, m) && Joined(s') && s' == After(s, m) && s'.b == s.b && s'.a.cfg == s.a.cfg
  {
    MoveKeepsSafe(s, m);
    s' := After(s, m);
  }

  lemma StepOne(s: System) returns (s': System)
    requires Stalled(s)
    ensures Next(s, s', true, Own(T1Expiry)) && Enquired(s')
    ensures s'.a.q == s.a.q && s'.b == s.b && s'.a.cfg == s.a.cfg && s'.a.n2 == CountRetry(s.a).n2
  {
    EnquiryGoesOut(s.a);
    s' := AMoves(s, Own(T1Expiry));
  }

  lemma StepTwo(s: System) returns (s': System)
    requires Enquired(s)
    ensures Next(s, s', false, Arrive(1)) && Answered(s')
    ensures s'.a == s.a && s'.b.q.received == s.b.q.received && s'.b.flags.localBusy == s.b.flags.localBusy
    ensures s'.b.peer == s.b.peer && s'.b.cfg == s.b.cfg
  {
    SafeBothWays(s);
    HeadIsUnderstood(s.b.q, s.a.q, s.ba, s.ab);
    OneHeard(s.b, s.ab[0]);
    EnquiryIsAnswered(s.b, s.a.q.vr);
    ArrivalIsPossible(Swap(s), 1);
    s' := BMoves(s, Arrive(1));
  }

  /** What the RR with F set makes of a: V(A) is right, and the replay due is what b lacks. */
  predicate Finalised(s: System, m: Link) {
    && m.log.out == s.a.log.out && m.flags.localBusy == s.a.flags.localBusy && (m.n2 == s.a.n2 || m.n2 == 0)
    && ReplayDefined(m) && IsReplay(Emitted(m, Flush(m)), s.a.q.accepted, |s.b.q.received|, s.b.cfg.my)
    && m.q.accepted == s.a.q.accepted && Acked(m.q) == |s.b.q.received|
    && (m.pending <==> m.q.va != m.q.vs) && (m.q.va == m.q.vs ==> !m.flags.t1)
  }

  lemma FinalArrives(s: System, m: Link)
    requires Answered(s) && m == Arrived(s.a, s.ba[..1])
    ensures Finalised(s, m)
  {
    HeadIsUnderstood(s.a.q, s.b.q, s.ab, s.ba);
    assert Acknowledges(s.ba[0], Acked(s.a.q), |s.b.q.received|);
    NrTestPasses(s.a.q, s.b.q, s.ba[0]);
    OneHeard(s.a, s.ba[0]);
    PayloadsAreWhole(s.b, s.a.cfg);
    OneArrival(s.a, s.ba[0].frame, s.b.q, s.ab, s.ba);
    FinalTriggersReplay(s.a, s.b.cfg.my, s.b.q.vr);
    ReplayStarts(Dispatch(s.a, s.ba[0].frame), |s.b.q.received|);
  }

  lemma EmptyFirst(ch: seq<Sent>)
    ensures [] + ch == ch
  {}

  /** What is on its way afterwards is what the replay sent. */
  lemma ReplayGoesOut(s: System, m: Link, s': System)
    requires Possible(s, Arrive(1)) && s' == After(s, Arrive(1)) && s.ab == [] && |s.ba| == 1
    requires m == Arrived(s.a, s.ba[..1]) && m.log.out == s.a.log.out && ReplayDefined(m)
    ensures s'.a == Flush(m) && s'.ab == Emitted(m, Flush(m)) && s'.ba == []
  {
    EmptyFirst(Emitted(m, Flush(m)));
  }

  lemma FlushKeeps(m: Link)
    requires ReplayDefined(m)
    ensures Flush(m).q == m.q && Flush(m).n2 == m.n2 && Flush(m).flags.localBusy == m.flags.localBusy
    ensures !m.pending ==> Flush(m) == m
  {}

  lemma ReplayIsOut(s: System, m: Link, s': System)
    requires Answered(s) && Finalised(s, m) && Joined(s') && s'.b == s.b
    requires s'.a == Flush(m) && s'.ab == Emitted(m, Flush(m)) && s'.ba == []
    ensures Repeated(s') && s'.a.q.accepted == s.a.q.accepted && (s'.a.n2 == s.a.n2 || s'.a.n2 == 0)
    ensures Acked(s'.a.q) == |s.b.q.received| && (s'.ab == [] ==> Recovered(s'))
  {
    FlushKeeps(m);
  }

  lemma StepThree(s: System) returns (s': System)
    requires Answered(s)
    ensures Next(s, s', true, Arrive(1)) && Repeated(s')
    ensures s'.a.q.accepted == s.a.q.accepted && s'.b == s.b && s'.a.cfg == s.a.cfg
    ensures s'.a.n2 == s.a.n2 || s'.a.n2 == 0
    ensures Acked(s'.a.q) == |s.b.q.received| && (s'.ab == [] ==> Recovered(s'))
  {
    ArrivalIsPossible(s, 1);
    s' := AMoves(s, Arrive(1));
    FinalArrives(s, Arrived(s.a, s.ba[..1]));
    ReplayGoesOut(s, Arrived(s.a, s.ba[..1]), s');
    ReplayIsOut(s, Arrived(s.a, s.ba[..1]), s');
  }

  lemma ReplayReaches(s: System)
    requires Repeated(s)
    ensures Between(s.b, s.a.q, s.ba, s.ab) && TakesAll(s.b.cfg, s.a.q.accepted)
    ensures Took(s.b, Arrived(s.b, s.ab), s.a.q.accepted, |s.ab|)
    ensures Possible(Swap(s), Arrive(|s.ab|))
    ensures After(Swap(s), Arrive(|s.ab|)).a == Arrived(s.b, s.ab) && s.ab[|s.ab|..] == []
    ensures Arrived(s.b, s.ab).q.received == s.a.q.accepted
  {
    SafeBothWays(s);
    PayloadsAreWhole(s.a, s.b.cfg);
    ReplayIsTaken(s.b, s.a.q, s.ba, s.ab, |s.ab|);
    ArrivalIsPossible(Swap(s), |s.ab|);
    assert s.ab[..|s.ab|] == s.ab;
    assert s.a.q.accepted[..|s.b.q.received| + |s.ab|] == s.a.q.accepted;
  }

  lemma StepFour(s: System) returns (s': System)
    requires Repeated(s) && !s.b.flags.localBusy
    ensures Next(s, s', false, Arrive(|s.ab|)) && Delivered(s') && s'.a == s.a
    ensures !s'.b.flags.localBusy && s'.b.peer == s.b.peer && s'.b.cfg == s.b.cfg && (|s.ab| > 0 ==> s'.b.flags.t2)
  {
    ReplayReaches(s);
    s' := BMoves(s, Arrive(|s.ab|));
  }

  lemma StepFive(s: System) returns (s': System)
    requires Delivered(s) && !s.b.flags.localBusy
    ensures Next(s, s', false, Own(T2Expiry)) && Acknowledging(s')
    ensures s'.a == s.a && s'.b.peer == s.b.peer && s'.b.cfg == s.b.cfg
  {
    AcknowledgementGoesOut(s.b);
    s' := BMoves(s, Own(T2Expiry));
  }

  lemma StepSix(s: System) returns (s': System)
    requires Acknowledging(s) && Addresses(s.b, s.a)
    ensures Next(s, s', true, Arrive(1)) && Recovered(s')
    ensures s'.a.q.accepted == s.a.q.accepted
  {
    HeadIsUnderstood(s.a.q, s.b.q, s.ab, s.ba);
    assert Acknowledges(s.ba[0], Acked(s.a.q), |s.b.q.received|);
    NrTestPasses(s.a.q, s.b.q, s.ba[0]);
    OneHeard(s.a, s.ba[0]);
    AcknowledgementArrives(s.a, s.b.peer, RR, s.b.q.vr);
    ArrivalIsPossible(s, 1);
    s' := AMoves(s, Arrive(1));
  }

  /** The enquiry and its answer, from any stalled state, in which T1 is running: what was not delivered is replayed.
      When only the acknowledgement had been lost that is nothing, and the answer has ended the matter. */
  lemma EnquiryRound(s: System) returns (s1: System, s2: System, s3: System)
    requires Stalled(s)
    ensures s.a.flags.t1 && Next(s, s1, true, Own(T1Expiry))
    ensures |s1.ab| == 1 && Next(s1, s2, false, Arrive(1))
    ensures |s2.ba| == 1 && Next(s2, s3, true, Arrive(1))
    ensures Repeated(s3) && |s3.ab| == |s.a.q.accepted| - |s.b.q.received| && s3.a.q.accepted == s.a.q.accepted
    ensures s3.ab == [] ==> Recovered(s3)
    ensures s3.b.flags.localBusy == s.b.flags.localBusy && s3.b.peer == s.b.peer && s3.b.cfg == s.b.cfg
    ensures s3.a.cfg == s.a.cfg && (s3.a.n2 == CountRetry(s.a).n2 || s3.a.n2 == 0)
    ensures Acked(s3.a.q) == |s.b.q.received|
  {
    s1 := StepOne(s);
    s2 := StepTwo(s1);
    s3 := StepThree(s2);
  }

  /** From any stalled state one loss-free round, in which every frame sent arrives, delivers every accepted
      payload and leaves V(A) = V(S).  It replays just what was not delivered.  When that is nothing, the RR with F = 1
      has ended the matter, and T2 is off.  Otherwise T2 is running when it goes off, and the RR that it sends ends the
      matter, if b has an address that a takes. */
  lemma RecoveryCompletes(s: System)
    returns (s1: System, s2: System, s3: System, s4: System, s5: System, s6: System)
    requires Stalled(s) && !s.b.flags.localBusy && Addresses(s.b, s.a)
    ensures s.a.flags.t1 && Next(s, s1, true, Own(T1Expiry))
    ensures |s1.ab| == 1 && Next(s1, s2, false, Arrive(1))
    ensures |s2.ba| == 1 && Next(s2, s3, true, Arrive(1))
    ensures |s3.ab| == |s.a.q.accepted| - |s.b.q.received| && s3.a.q.accepted == s.a.q.accepted
    ensures s3.ab == [] ==> Recovered(s3) && !s3.b.flags.t2
    ensures s3.ab != [] ==> Next(s3, s4, false, Arrive(|s3.ab|)) && s4.b.flags.t2
    ensures s3.ab != [] ==> Next(s4, s5, false, Own(T2Expiry)) && |s5.ba| == 1 && Next(s5, s6, true, Arrive(1))
    ensures s3.ab != [] ==> Recovered(s6) && s6.a.q.accepted == s.a.q.accepted
  {
    s1, s2, s3 := EnquiryRound(s);
    if s3.ab == [] {
      s4, s5, s6 := s3, s3, s3;
    } else {
      s4 := StepFour(s3);
      s5 := StepFive(s4);
      AddressesStay(s, s5);
      s6 := StepSix(s5);
    }
  }

  lemma AddressesStay(s: System, s': System)
    requires Joined(s) && Joined(s') && s'.a.cfg == s.a.cfg && s'.b.cfg == s.b.cfg && s'.b.peer == s.b.peer
    ensures Addresses(s'.b, s'.a) == Addresses(s.b, s.a)
  {}

  // ---------------------------------------------------------------------------------------------
  // A busy receiver
  // ---------------------------------------------------------------------------------------------

  predicate BusilyDelivered(s: System, r: nat) {
    && Joined(s) && s.ab == [] && s.ba != [] && s.b.q.received == s.a.q.accepted && AreRnrs(s.ba, s.b.cfg.my, r)
    && r + |s.ba| == |s.a.q.accepted|
  }

  lemma BusyStepFour(s: System) returns (s': System)
    requires Repeated(s) && s.b.flags.localBusy && s.ab != []
    ensures Next(s, s', false, Arrive(|s.ab|)) && BusilyDelivered(s', |s.b.q.received|) && s'.a == s.a
  {
    ReplayReaches(s);
    s' := BMoves(s, Arrive(|s.ab|));
    RnrsAreSent(s.b, Arrived(s.b, s.ab), |s.ab|);
    assert s'.ba == Emitted(s.b, Arrived(s.b, s.ab));
  }

  lemma RnrsAreSent(b: Link, b': Link, n: nat)
    requires b.flags.localBusy && Said(b, b', n)
    ensures |Emitted(b, b')| == n && AreRnrs(Emitted(b, b'), b.cfg.my, |b.q.received|)
  {
    forall k: nat | k < n ensures IsRnr(Emitted(b, b')[k], b.cfg.my, |b.q.received| + k + 1) {
      assert RnrAt(b, b', k);
    }
  }

  lemma BusyStepFive(s: System, r: nat) returns (s': System)
    requires BusilyDelivered(s, r)
    ensures Next(s, s', true, Arrive(|s.ba|)) && Recovered(s') && s'.a.q.accepted == s.a.q.accepted
  {
    PayloadsAreWhole(s.b, s.a.cfg);
    RnrsArrive(s.a, s.b.q, s.ab, s.ba, r, |s.ba|);
    ArrivalIsPossible(s, |s.ba|);
    s' := AMoves(s, Arrive(|s.ba|));
    assert s.ba[..|s.ba|] == s.ba && s.ba[|s.ba|..] == [];
  }

  /** A busy receiver takes the replay all the same, and acknowledges each frame with an RNR. */
  lemma RecoveryOfBusyReceiver(s: System)
    returns (s1: System, s2: System, s3: System, s4: System, s5: System)
    requires Stalled(s) && s.b.flags.localBusy
    ensures Next(s, s1, true, Own(T1Expiry)) && Next(s1, s2, false, Arrive(1)) && Next(s2, s3, true, Arrive(1))
    ensures |s3.ab| == |s.a.q.accepted| - |s.b.q.received| && (s3.ab == [] ==> Recovered(s3))
    ensures s3.ab != [] ==> Next(s3, s4, false, Arrive(|s3.ab|)) && |s4.ba| == |s3.ab|
    ensures s3.ab != [] ==> Next(s4, s5, true, Arrive(|s4.ba|)) && Recovered(s5) && s5.a.q.accepted == s.a.q.accepted
  {
    s1, s2, s3 := EnquiryRound(s);
    if s3.ab == [] {
      s4, s5 := s3, s3;
    } else {
      s4 := BusyStepFour(s3);
      s5 := BusyStepFive(s4, |s3.b.q.received|);
    }
  }

  // ---------------------------------------------------------------------------------------------
  // A receiver without the address
  // ---------------------------------------------------------------------------------------------

  lemma UnheardStep(s: System) returns (s': System)
    requires Acknowledging(s) && !Addresses(s.b, s.a)
    ensures Next(s, s', true, Arrive(1)) && Delivered(s') && s'.a == s.a && s'.b == s.b
  {
    OneUnheard(s.a, s.ba[0]);
    ArrivalIsPossible(s, 1);
    s' := AMoves(s, Arrive(1));
    assert s.ab + Emitted(s.a, s.a) == s.ab;
  }

  /** When b's address for a is none that a takes, as after a handshake that a began, the replay is delivered but its
      acknowledgement not heard. */
  lemma UnpairedReceiverIsSilent(s: System)
    returns (s1: System, s2: System, s3: System, s4: System, s5: System, s6: System)
    requires Stalled(s) && !s.b.flags.localBusy && !Addresses(s.b, s.a) && |s.b.q.received| < |s.a.q.accepted|
    ensures Next(s, s1, true, Own(T1Expiry)) && Next(s1, s2, false, Arrive(1)) && Next(s2, s3, true, Arrive(1))
    ensures Next(s3, s4, false, Arrive(|s3.ab|)) && Next(s4, s5, false, Own(T2Expiry)) && Next(s5, s6, true, Arrive(1))
    ensures Delivered(s6) && Acked(s6.a.q) == |s.b.q.received| && s6.a.q.accepted == s.a.q.accepted
    ensures s6.a.cfg == s.a.cfg && (s6.a.n2 == CountRetry(s.a).n2 || s6.a.n2 == 0)
  {
    s1, s2, s3 := EnquiryRound(s);
    s4 := StepFour(s3);
    s5 := StepFive(s4);
    AddressesStay(s, s5);
    s6 := UnheardStep(s5);
  }

  /** A second enquiry, with a second retry left, then ends the matter: only the acknowledgement is wanting. */
  lemma SecondEnquiryCompletes(s: System, s6: System) returns (s7: System, s8: System, s9: System)
    requires Stalled(s) && Delivered(s6) && Acked(s6.a.q) < |s6.a.q.accepted| == |s.a.q.accepted|
    requires s6.a.cfg == s.a.cfg && (s6.a.n2 == CountRetry(s.a).n2 || s6.a.n2 == 0)
    requires !RetriesExhausted(CountRetry(CountRetry(s.a)))
    ensures s6.a.flags.t1 && Next(s6, s7, true, Own(T1Expiry))
    ensures Next(s7, s8, false, Arrive(1)) && Next(s8, s9, true, Arrive(1))
    ensures Recovered(s9) && s9.a.q.accepted == s6.a.q.accepted
  {
    RetryIsLeft(s.a, s6.a);
    s7, s8, s9 := EnquiryRound(s6);
  }

  lemma RetryIsLeft(a: Link, a': Link)
    requires !RetriesExhausted(CountRetry(CountRetry(a))) && a'.cfg == a.cfg
    requires a'.n2 == CountRetry(a).n2 || a'.n2 == 0
    ensures !RetriesExhausted(CountRetry(a'))
  {}
}

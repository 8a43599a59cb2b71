/** The FRMR: what it says, and that T1 repeats it.
  */
module Rejection {
  import opened Crc
  import opened Frame
  import opened Link
  import opened Runs
  import opened Epochs
  import Replay

  /** An FRMR that says: the control octet rejected, V(R) and V(S) as in a control octet, and the reason bits. */
  predicate IsFrmr(s: Sent, my: Octet, rejected: Octet, q: Sequence, reason: Octet) {
    && s.Sent? && s.frame.address == my && s.frame.control == U(0x87, false) && |s.frame.info| == 3
    && s.frame.info[0] == rejected && s.frame.info[1] as nat == 32 * q.vr + 2 * q.vs && s.frame.info[2] == reason
  }

  lemma RetransmittedFrmr(l: Link)
    ensures |RetransmitFrmr(l).log.out| == |l.log.out| + 1 && l.log.out <= RetransmitFrmr(l).log.out
    ensures IsFrmr(RetransmitFrmr(l).log.out[|l.log.out|], l.cfg.my, l.frmrCtrl, l.q, l.frmrFlags)
  {
    ControlOctets(l.q.vs, l.q.vr, false);
  }

  /** One FRMR was sent, with T2 stopped and T1 started, and is what T1 will repeat. */
  predicate Rejected(l: Link, l': Link, rejected: Octet, reason: Octet) {
    && |l'.log.out| == |l.log.out| + 1 && l.log.out <= l'.log.out
    && IsFrmr(l'.log.out[|l.log.out|], l.cfg.my, rejected, l.q, reason)
    && l'.q == l.q && l'.cfg == l.cfg && l'.frmrCtrl == rejected && l'.frmrFlags == reason
    && l'.flags == l.flags.(t1 := true, t2 := false)
  }

  lemma SentFrmr(l: Link, c: Control, reason: Octet)
    ensures Rejected(l, SendFrmr(l, c, reason), OctetOf(c), reason)
  {
    RetransmittedFrmr(T2Stop(l.(frmrCtrl := OctetOf(c), frmrFlags := reason)));
  }

  lemma BeforeNrSends(l: Link, address: Octet, kind: Supervisory, pf: bool)
    ensures var m := BeforeNr(l, address, kind, pf);
      && l.log.out <= m.log.out && |m.log.out| <= |l.log.out| + 1 && m.q == l.q && m.cfg == l.cfg
      && (!pf || !IsCommand(l, address) ==> m.log.out == l.log.out) && m.state == l.state
  {}

  lemma RejectionIsFrmr(l: Link, c: Control)
    requires l.state.Connected?
    ensures Rejected(l, RejectNr(l, c), OctetOf(c), 0x08) && RejectNr(l, c).state.FrmrError?
  {
    SentFrmr(l, c, FRMR_Z);
  }

  /** An invalid N(R): an FRMR with reason Z, and FRMR_ERROR; if the frame was a poll, its answer goes before. */
  lemma InvalidNrIsRejected(l: Link, f: Frame) returns (m: Link)
    requires l.state.Connected? && !f.control.U? && !NrIsValid(l.q, f.control.nr)
    ensures l.log.out <= m.log.out && |m.log.out| <= |l.log.out| + 1 && m.q == l.q && m.cfg == l.cfg
    ensures Rejected(m, Dispatch(l, f), OctetOf(f.control), 0x08) && Dispatch(l, f).state.FrmrError?
    ensures f.control.I? || !f.control.pf || !IsCommand(l, f.address) ==> m.log.out == l.log.out
  {
    match f.control {
      case I(_, _, _) => m := l;
      case S(kind, _, pf) =>
        m := BeforeNr(l, f.address, kind, pf);
        BeforeNrSends(l, f.address, kind, pf);
    }
    RejectionIsFrmr(m, f.control);
  }

  /** An unnumbered frame that CONNECTED does not recognise: an FRMR with reason W, and no change of state. */
  lemma UnrecognisedIsRejected(l: Link, f: Frame)
    requires l.state.Connected? && f.control.U? && !IsRecognised(f.control.code)
    ensures Rejected(l, Dispatch(l, f), OctetOf(f.control), 0x01) && Dispatch(l, f).state.Connected?
  {
    SentFrmr(l, f.control, FRMR_W);
  }

  // ---------------------------------------------------------------------------------------------
  // Until the link is reset
  // ---------------------------------------------------------------------------------------------

  predicate SameFrmr(l: Link, l': Link) {
    l'.frmrCtrl == l.frmrCtrl && l'.frmrFlags == l.frmrFlags && l'.q == l.q && l'.cfg == l.cfg
  }

  /** Out of CONNECTED without a reset: not back in, and in FRMR_ERROR only if it was there all along. */
  predicate StaysOut(l: Link, l': Link) {
    !l'.state.Connected? && (l'.state.FrmrError? ==> l.state.FrmrError? && SameFrmr(l, l'))
  }

  lemma StaysOutTwice(a: Link, b: Link, c: Link)
    requires StaysOut(a, b) && StaysOut(b, c)
    ensures StaysOut(a, c)
  {}

  lemma FrameStaysOut(l: Link, f: Frame)
    requires !l.state.Connected? && !Resets(l.state, f.control)
    ensures StaysOut(l, Dispatch(l, f))
  {
    match l.state
    case Disconnected =>
    case FrmrError =>
    case Connecting =>
    case Disconnecting =>
  }

  lemma {:induction false} FramesStayOut(l: Link, fs: seq<Frame>)
    requires Inside(l) && !l.state.Connected? && DispatchAll(l, fs).epoch == l.epoch
    ensures StaysOut(l, DispatchAll(l, fs))
  {
    if fs != [] {
      var m, f := DispatchAll(l, fs[..|fs| - 1]), fs[|fs| - 1];
      ReceiptsAdvance(l, fs[..|fs| - 1]);
      DispatchBookkeeping(m, f);
      FramesStayOut(l, fs[..|fs| - 1]);
      FrameStaysOut(m, f);
      StaysOutTwice(l, m, Dispatch(m, f));
    }
  }

  lemma FlushStaysOut(l: Link)
    requires ReplayDefined(l) && !l.state.Connected?
    ensures StaysOut(l, Flush(l)) && Flush(l).epoch == l.epoch
  {}

  lemma T1StaysOut(l: Link)
    requires !l.state.Connected? && T1Expired(l).epoch == l.epoch
    ensures StaysOut(l, T1Expired(l))
  {
    match l.state
    case Connecting =>
    case Disconnecting =>
    case FrmrError =>
    case Disconnected =>
  }

  lemma OwnCallStaysOut(l: Link, c: Call)
    requires Allowed(l, c) && !c.Receive? && !l.state.Connected? && Do(l, c).epoch == l.epoch
    ensures StaysOut(l, Do(l, c))
  {
    match c
    case T1Expiry => T1StaysOut(l);
    case Transmit(p) =>
    case _ =>
  }

  lemma StepStaysOut(l: Link, c: Call)
    requires Invariant(l) && Allowed(l, c) && !l.state.Connected? && Do(l, c).epoch == l.epoch
    ensures StaysOut(l, Do(l, c))
  {
    if c.Receive? {
      FramesStayOut(l, c.frames);
      FlushStaysOut(DispatchAll(l, c.frames));
      StaysOutTwice(l, DispatchAll(l, c.frames), Do(l, c));
    } else {
      OwnCallStaysOut(l, c);
    }
  }

  lemma {:induction false} RunsStayOut(ls: seq<Link>, calls: seq<Call>, j: nat, k: nat)
    requires IsRun(ls, calls) && j <= k < |ls| && !ls[j].state.Connected? && ls[k].epoch == ls[j].epoch
    ensures StaysOut(ls[j], ls[k])
    decreases k
  {
    if j < k {
      EpochsAdvance(ls, calls, j, k - 1);
      EpochsAdvance(ls, calls, k - 1, k);
      RunsKeepInvariant(ls, calls, k - 1);
      RunsStayOut(ls, calls, j, k - 1);
      assert StepAt(ls, calls, k - 1);
      StepStaysOut(ls[k - 1], calls[k - 1]);
      StaysOutTwice(ls[j], ls[k - 1], ls[k]);
    }
  }

  lemma RepeatsFrmr(l: Link)
    requires l.state.FrmrError? && !RetriesExhausted(CountRetry(l))
    ensures |T1Expired(l).log.out| == |l.log.out| + 1 && l.log.out <= T1Expired(l).log.out
    ensures IsFrmr(T1Expired(l).log.out[|l.log.out|], l.cfg.my, l.frmrCtrl, l.q, l.frmrFlags)
    ensures T1Expired(l).flags.t1 && T1Expired(l).state.FrmrError?
  {
    RetransmittedFrmr(CountRetry(l));
  }

  /** After the rest of the call. */
  lemma RestOfCallStaysOut(l: Link, fs: seq<Frame>, i: nat, m: Link)
    requires Inside(l) && i < |fs| && m == Dispatch(DispatchAll(l, fs[..i]), fs[i]) && !m.state.Connected?
    requires ReplayDefined(DispatchAll(l, fs))
    ensures DataIn(l, fs).epoch >= m.epoch
    ensures DataIn(l, fs).epoch == m.epoch ==> StaysOut(m, DataIn(l, fs))
  {
    Replay.DispatchFrom(l, fs, i);
    DispatchAllKeepsInside(l, fs[..i]);
    DispatchKeepsInside(DispatchAll(l, fs[..i]), fs[i]);
    ReceiptsAdvance(m, fs[i + 1..]);
    if DispatchAll(m, fs[i + 1..]).epoch == m.epoch {
      FramesStayOut(m, fs[i + 1..]);
      FlushStaysOut(DispatchAll(l, fs));
      StaysOutTwice(m, DispatchAll(l, fs), DataIn(l, fs));
    }
  }

  /** From the frame rejected to the state k, without a reset in between. */
  lemma StaysRejected(ls: seq<Link>, calls: seq<Call>, j: nat, i: nat, k: nat, m: Link)
    requires IsRun(ls, calls) && j < k < |ls| && calls[j].Receive? && i < |calls[j].frames|
    requires m == Dispatch(DispatchAll(ls[j], calls[j].frames[..i]), calls[j].frames[i]) && !m.state.Connected?
    requires ls[k].epoch == m.epoch
    ensures StaysOut(m, ls[k])
  {
    RunsKeepInvariant(ls, calls, j);
    assert StepAt(ls, calls, j);
    RestOfCallStaysOut(ls[j], calls[j].frames, i, m);
    EpochsAdvance(ls, calls, j + 1, k);
    RunsStayOut(ls, calls, j + 1, k);
    StaysOutTwice(m, ls[j + 1], ls[k]);
  }

  /** However long a station stays in FRMR_ERROR without a reset, whatever arrives and is called: each T1 expiry with a
      retry left sends the FRMR again that the rejected frame drew, with the counters of that moment. */
  lemma FrmrIsRepeated(ls: seq<Link>, calls: seq<Call>, j: nat, i: nat, k: nat)
    requires IsRun(ls, calls) && j < k < |ls| && calls[j].Receive? && i < |calls[j].frames|
    requires var m, f := DispatchAll(ls[j], calls[j].frames[..i]), calls[j].frames[i];
      && m.state.Connected? && !f.control.U? && !NrIsValid(m.q, f.control.nr) && ls[k].epoch == m.epoch
    requires ls[k].state.FrmrError? && !RetriesExhausted(CountRetry(ls[k]))
    ensures var m, f := DispatchAll(ls[j], calls[j].frames[..i]), calls[j].frames[i];
      var out := T1Expired(ls[k]).log.out;
      && |out| == |ls[k].log.out| + 1 && ls[k].log.out <= out
      && IsFrmr(out[|out| - 1], m.cfg.my, OctetOf(f.control), m.q, 0x08) && T1Expired(ls[k]).flags.t1
  {
    var m, f := DispatchAll(ls[j], calls[j].frames[..i]), calls[j].frames[i];
    var m' := InvalidNrIsRejected(m, f);
    DispatchBookkeeping(m, f);
    StaysRejected(ls, calls, j, i, k, Dispatch(m, f));
    RepeatsFrmr(ls[k]);
  }
}

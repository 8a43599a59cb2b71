/** REJ exceptions, counted: one REJ for each, no more and no fewer.
  */
module Exceptions {
  import opened Crc
  import opened Frame
  import opened Link
  import opened Runs
  import opened Acknowledgement

  /** Whether an exception is open, and how many have begun in all. */
  datatype Count = Count(open: bool, begun: nat)

  /** From the frames received: an I-frame out of sequence begins an exception unless one is open; the next in sequence,
      or a reset, ends it. */
  function CountFrame(x: Count, l: Link, f: Frame): Count {
    if Resets(l.state, f.control) then x.(open := false)
    else if !l.state.Connected? || !f.control.I? || !NrIsValid(l.q, f.control.nr) then x
    else if f.control.ns == l.q.vr then x.(open := false)
    else if x.open then x
    else Count(true, x.begun + 1)
  }

  function CountFrames(x: Count, l: Link, fs: seq<Frame>): Count {
    if fs == [] then x
    else CountFrame(CountFrames(x, l, fs[..|fs| - 1]), DispatchAll(l, fs[..|fs| - 1]), fs[|fs| - 1])
  }

  function CountCall(x: Count, l: Link, c: Call): Count
    requires Allowed(l, c)
  {
    if c.Receive? then CountFrames(x, l, c.frames)
    else if Do(l, c).epoch != l.epoch then x.(open := false)
    else x
  }

  function CountOf(ls: seq<Link>, calls: seq<Call>, k: nat): Count
    requires IsRun(ls, calls) && k < |ls|
  {
    if k == 0 then Count(false, 0)
    else
      assert StepAt(ls, calls, k - 1);
      CountCall(CountOf(ls, calls, k - 1), ls[k - 1], calls[k - 1])
  }

  predicate Counted(l: Link, x: Count) { l.flags.rej == x.open && Rejs(l.log.out) == x.begun }

  /** No REJ was sent, and the exception is open as before, or with a reset not. */
  predicate NoRej(l: Link, l': Link, open: bool) { NoneAdded(l.log.out, l'.log.out) && l'.flags.rej == open }

  lemma NoRejCounts(l: Link, l': Link, x: Count, open: bool)
    requires Counted(l, x) && NoRej(l, l', open)
    ensures Counted(l', x.(open := open))
  {
    NoneAddedCounts(l.log.out, l'.log.out);
  }

  // ---------------------------------------------------------------------------------------------
  // One frame
  // ---------------------------------------------------------------------------------------------

  lemma TakingEndsException(l: Link, pf: bool, info: Payload)
    ensures NoRej(l, InSequence(l, pf, info), false)
  {}

  lemma OpenExceptionSendsNoRej(l: Link, pf: bool)
    requires l.flags.rej
    ensures NoRej(l, OutOfSequence(l, pf), true)
  {}

  lemma ExceptionBegins(l: Link, pf: bool)
    requires !l.flags.rej
    ensures OutOfSequence(l, pf).flags.rej && Rejs(OutOfSequence(l, pf).log.out) == Rejs(l.log.out) + 1
  {
    RejsOfOneMore(l.log.out, OutOfSequence(l, pf).log.out[|l.log.out|]);
  }

  lemma AcksCount(l: Link, nr: Mod8, x: Count)
    requires Counted(l, x)
    ensures Counted(ProcessNr(l, nr), x) && ProcessNr(l, nr).q.vr == l.q.vr
  {
    NrSpends(l, RR, nr);
  }

  lemma INext(l: Link, ns: Mod8, pf: bool, info: Payload, x: Count)
    requires Counted(l, x)
    ensures Counted(ByNs(l, ns, pf, info),
                    if ns == l.q.vr then x.(open := false) else if x.open then x else Count(true, x.begun + 1))
  {
    if ns == l.q.vr {
      TakingEndsException(l, pf, info);
      NoRejCounts(l, ByNs(l, ns, pf, info), x, false);
    } else if l.flags.rej {
      OpenExceptionSendsNoRej(l, pf);
      NoRejCounts(l, ByNs(l, ns, pf, info), x, true);
    } else {
      ExceptionBegins(l, pf);
    }
  }

  lemma IIsCounted(l: Link, f: Frame, x: Count)
    requires Counted(l, x) && l.state.Connected? && f.control.I?
    ensures Counted(Dispatch(l, f), CountFrame(x, l, f))
  {
    if NrIsValid(l.q, f.control.nr) {
      AcksCount(l, f.control.nr, x);
      INext(ProcessNr(l, f.control.nr), f.control.ns, f.control.pf, f.info, x);
    } else {
      RejectSpends(l, f.control);
      NoRejCounts(l, Dispatch(l, f), x, x.open);
    }
  }

  lemma SIsCounted(l: Link, address: Octet, kind: Supervisory, nr: Mod8, pf: bool, x: Count)
    requires Counted(l, x)
    ensures Counted(HandleS(l, address, kind, nr, pf), x)
  {
    var m := BeforeNr(l, address, kind, pf);
    BeforeNrSpends(l, address, kind, pf);
    NoRejCounts(l, m, x, x.open);
    if NrIsValid(l.q, nr) {
      NrSpends(m, kind, nr);
      NoRejCounts(m, HandleS(l, address, kind, nr, pf), x, x.open);
    } else {
      RejectSpends(m, S(kind, nr, pf));
      NoRejCounts(m, HandleS(l, address, kind, nr, pf), x, x.open);
    }
  }

  lemma ResettingSendsNoRej(l: Link, pf: bool, state: State, e: Event)
    ensures NoRej(l, SetState(SendUa(ResetState(l), pf), state, e), false)
    ensures NoRej(l, SetState(ResetState(l), state, e), false)
  {}

  lemma SendUIsNoRej(l: Link, address: Octet, code: Octet, pf: bool, info: Payload)
    ensures NoRej(l, SendU(l, address, code, pf, info), l.flags.rej) && NoRej(l, OnData(l, info), l.flags.rej)
  {}

  lemma FrmrIsNoRej(l: Link, c: Control)
    ensures NoRej(l, SendFrmr(l, c, FRMR_W), l.flags.rej)
  {}

  lemma USendsNoRej(l: Link, address: Octet, code: Octet, pf: bool, info: Payload, emptied: bool)
    ensures NoRej(l, HandleU(l, address, code, pf, info, emptied), !ResetBy(Connected, code, pf) && l.flags.rej)
  {
    if code == U_SABM {
      ResettingSendsNoRej(l, pf, Connected, ConnReq);
    } else if code == U_DISC {
      ResettingSendsNoRej(l, pf, Disconnected, PeerDisc);
    } else if code == U_DM {
      ResettingSendsNoRej(l, pf, Disconnected, PeerReject);
    } else if code == U_FRMR {
      ResettingSendsNoRej(l, pf, FrmrError, ProtocolError);
    } else if code == U_UI || code == U_TEST {
      SendUIsNoRej(l, l.cfg.my, U_TEST, pf, info);
    } else if IsUnsupportedMode(code) {
      SendUIsNoRej(l, l.cfg.my, U_DM, pf, []);
    } else {
      FrmrIsNoRej(l, U(code, pf));
    }
  }

  lemma DisconnectedSendsNoRej(l: Link, c: Control, info: Payload)
    ensures NoRej(l, InDisconnected(l, c, info), !Resets(Disconnected, c) && l.flags.rej)
    ensures NoRej(l, InFrmrError(l, c), !Resets(FrmrError, c) && l.flags.rej)
  {
    if c.U? && c.code == U_SABM {
      ResettingSendsNoRej(l, c.pf, Connected, ConnReq);
    }
  }

  lemma ConnectingSendsNoRej(l: Link, c: Control)
    ensures NoRej(l, InConnecting(l, c), !Resets(Connecting, c) && l.flags.rej)
  {
    if !c.U? {
    } else if c.code == U_SABM || c.code == U_DISC {
    } else if c.code == U_UA {
      ResettingSendsNoRej(T1Stop(l), c.pf, Connected, ConnAccepted);
    } else if c.code == U_DM {
    }
  }

  lemma DisconnectingSendsNoRej(l: Link, c: Control)
    ensures NoRej(l, InDisconnecting(l, c), l.flags.rej)
  {
    if !c.U? {
    } else if c.code == U_SABM || c.code == U_SABME {
    } else if c.code == U_DISC {
    } else if c.code == U_UA {
    } else if c.code == U_DM {
    }
  }

  lemma OtherStateIsCounted(l: Link, f: Frame, x: Count)
    requires Counted(l, x) && !l.state.Connected?
    ensures Counted(Dispatch(l, f), CountFrame(x, l, f))
  {
    match l.state {
      case Disconnected => DisconnectedSendsNoRej(l, f.control, f.info);
      case FrmrError => DisconnectedSendsNoRej(l, f.control, f.info);
      case Connecting => ConnectingSendsNoRej(l, f.control);
      case Disconnecting => DisconnectingSendsNoRej(l, f.control);
    }
    NoRejCounts(l, Dispatch(l, f), x, !Resets(l.state, f.control) && l.flags.rej);
  }

  lemma FrameIsCounted(l: Link, f: Frame, x: Count)
    requires Counted(l, x)
    ensures Counted(Dispatch(l, f), CountFrame(x, l, f))
  {
    if !l.state.Connected? {
      OtherStateIsCounted(l, f, x);
    } else {
      match f.control
      case I(_, _, _) => IIsCounted(l, f, x);
      case S(kind, nr, pf) => SIsCounted(l, f.address, kind, nr, pf, x);
      case U(code, pf) =>
        USendsNoRej(l, f.address, code, pf, f.info, f.emptied);
        NoRejCounts(l, Dispatch(l, f), x, !ResetBy(Connected, code, pf) && l.flags.rej);
    }
  }

  lemma {:induction false} FramesAreCounted(l: Link, fs: seq<Frame>, x: Count)
    requires Counted(l, x)
    ensures Counted(DispatchAll(l, fs), CountFrames(x, l, fs))
  {
    if fs != [] {
      FramesAreCounted(l, fs[..|fs| - 1], x);
      FrameIsCounted(DispatchAll(l, fs[..|fs| - 1]), fs[|fs| - 1], CountFrames(x, l, fs[..|fs| - 1]));
    }
  }

  // ---------------------------------------------------------------------------------------------
  // Runs
  // ---------------------------------------------------------------------------------------------

  lemma FlushIsCounted(l: Link, x: Count)
    requires ReplayDefined(l) && Counted(l, x)
    ensures Counted(Flush(l), x)
  {
    FlushKeepsException(l);
    NoRejCounts(l, Flush(l), x, x.open);
  }

  lemma FlushKeepsException(l: Link)
    requires ReplayDefined(l)
    ensures NoRej(l, Flush(l), l.flags.rej)
  {}

  lemma TransmitSendsNoRej(l: Link, p: Payload)
    requires RingSized(l)
    ensures NoRej(l, TransmitI(l, p), l.flags.rej) && TransmitI(l, p).epoch == l.epoch
  {}

  lemma T1SendsNoRej(l: Link)
    ensures NoRej(l, T1Expired(l), T1Expired(l).epoch == l.epoch && l.flags.rej)
  {
    if !RetriesExhausted(CountRetry(l)) {
      match l.state
      case Connecting =>
      case Disconnecting =>
      case Connected =>
      case FrmrError =>
      case Disconnected =>
    }
  }

  lemma ModeCallsSendNoRej(l: Link, address: Octet)
    ensures NoRej(l, LinkSetup(l, address), l.flags.rej) && NoRej(l, Disconnect(l), l.flags.rej)
    ensures LinkSetup(l, address).epoch == Disconnect(l).epoch == l.epoch
  {}

  lemma ResetsSendNoRej(l: Link)
    ensures NoRej(l, LinkReset(l), false) && NoRej(l, Abort(l), false)
    ensures LinkReset(l).epoch == Abort(l).epoch == l.epoch + 1
  {}

  lemma SupervisoryCallsSendNoRej(l: Link, busy: bool)
    ensures NoRej(l, T2Expired(l), l.flags.rej) && NoRej(l, SetLocalBusy(l, busy), l.flags.rej)
    ensures T2Expired(l).epoch == SetLocalBusy(l, busy).epoch == l.epoch
  {}

  lemma OwnCallSendsNoRej(l: Link, c: Call)
    requires Allowed(l, c) && !c.Receive?
    ensures NoRej(l, Do(l, c), Do(l, c).epoch == l.epoch && l.flags.rej)
  {
    match c
    case Transmit(p) => TransmitSendsNoRej(l, p);
    case T1Expiry => T1SendsNoRej(l);
    case T2Expiry => SupervisoryCallsSendNoRej(l, false);
    case Busy(busy) => SupervisoryCallsSendNoRej(l, busy);
    case Setup(address) => ModeCallsSendNoRej(l, address);
    case Disc => ModeCallsSendNoRej(l, 0);
    case Reset => ResetsSendNoRej(l);
    case AbortAll => ResetsSendNoRej(l);
    case Ui(address, p) => SendUIsNoRej(l, address, U_UI, false, p);
    case Test(address, p) => SendUIsNoRej(l, address, U_TEST, true, p);
  }

  lemma CallIsCounted(l: Link, c: Call, x: Count)
    requires Counted(l, x) && Allowed(l, c)
    ensures Counted(Do(l, c), CountCall(x, l, c))
  {
    if c.Receive? {
      FramesAreCounted(l, c.frames, x);
      FlushIsCounted(DispatchAll(l, c.frames), CountFrames(x, l, c.frames));
    } else {
      OwnCallSendsNoRej(l, c);
      NoRejCounts(l, Do(l, c), x, Do(l, c).epoch == l.epoch && l.flags.rej);
    }
  }

  /** In every run as many REJs are sent as exceptions begin, and a station is in an exception just while one is
      open. */
  lemma {:induction false} RejsExactly(ls: seq<Link>, calls: seq<Call>, k: nat)
    requires IsRun(ls, calls) && k < |ls|
    ensures Rejs(ls[k].log.out) == CountOf(ls, calls, k).begun && ls[k].flags.rej == CountOf(ls, calls, k).open
    decreases k
  {
    if k == 0 {
    } else {
      RejsExactly(ls, calls, k - 1);
      assert StepAt(ls, calls, k - 1);
      CallIsCounted(ls[k - 1], calls[k - 1], CountOf(ls, calls, k - 1));
    }
  }
}

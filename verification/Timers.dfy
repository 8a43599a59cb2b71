/** When T1 and T2 run: what sets them, and what stops them.
  */
module Timers {
  import opened Crc
  import opened Frame
  import opened Link
  import opened Runs
  import opened Acknowledgement

  // ---------------------------------------------------------------------------------------------
  // T1
  // ---------------------------------------------------------------------------------------------

  /** T1 runs just while an answer is outstanding: to a command, or in CONNECTED to an I-frame. */
  predicate T1Exact(l: Link) {
    && (Waits(l.state) ==> l.flags.t1) && (l.state.Disconnected? ==> !l.flags.t1)
    && (l.state.Connected? ==> (l.flags.t1 <==> Acked(l.q) < |l.q.accepted|))
  }

  predicate Waits(state: State) { state.Connecting? || state.Disconnecting? }

  /** After a frame: a replay that is due will start T1, and something is outstanding then. */
  predicate T1Follows(l: Link) {
    if l.pending then l.state.Connected? && Acked(l.q) < |l.q.accepted| else T1Exact(l)
  }

  lemma NrRunsT1(l: Link, nr: Mod8)
    requires T1Exact(l) && !l.pending && l.state.Connected? && Inside(l) && NrIsValid(l.q, nr)
    ensures T1Exact(ProcessNr(l, nr)) && !ProcessNr(l, nr).pending && ProcessNr(l, nr).state.Connected?
  {
    AckKeeps(l.q, nr);
  }

  lemma NsLeavesT1(l: Link, ns: Mod8, pf: bool, info: Payload)
    requires T1Exact(l) && !l.pending && l.state.Connected?
    ensures T1Follows(ByNs(l, ns, pf, info))
  {}

  lemma IRunsT1(l: Link, ns: Mod8, nr: Mod8, pf: bool, info: Payload)
    requires T1Exact(l) && !l.pending && l.state.Connected? && Inside(l)
    ensures T1Follows(HandleI(l, ns, nr, pf, info))
  {
    if NrIsValid(l.q, nr) {
      NrRunsT1(l, nr);
      NsLeavesT1(ProcessNr(l, nr), ns, pf, info);
    }
  }

  lemma SRunsT1(l: Link, address: Octet, kind: Supervisory, nr: Mod8, pf: bool)
    requires T1Exact(l) && !l.pending && l.state.Connected? && Inside(l)
    ensures T1Follows(HandleS(l, address, kind, nr, pf))
  {
    if NrIsValid(l.q, nr) {
      AckKeeps(l.q, nr);
    }
  }

  lemma AcceptingRunsT1(l: Link, pf: bool)
    requires !l.pending
    ensures T1Follows(SetState(SendUa(ResetState(l), pf), Connected, ConnReq))
    ensures T1Follows(SetState(ResetState(T1Stop(l)), Connected, ConnAccepted))
  {}

  lemma URunsT1(l: Link, f: Frame)
    requires T1Exact(l) && !l.pending && l.state.Connected? && f.control.U? && IsRecognised(f.control.code)
    ensures T1Follows(HandleU(l, f.address, f.control.code, f.control.pf, f.info, f.emptied))
  {
    var code := f.control.code;
    if code == U_SABM {
      AcceptingRunsT1(l, f.control.pf);
    } else if code == U_DISC {
    } else if code == U_DM {
    } else if code == U_FRMR {
    } else if code == U_UI || code == U_TEST {
    }
  }

  lemma DisconnectedRunsT1(l: Link, c: Control, info: Payload)
    requires T1Exact(l) && !l.pending
    ensures l.state.Disconnected? ==> T1Follows(InDisconnected(l, c, info))
    ensures l.state.FrmrError? ==> T1Follows(InFrmrError(l, c))
  {
    if c.U? && c.code == U_SABM {
      AcceptingRunsT1(l, c.pf);
    }
  }

  lemma ConnectingRunsT1(l: Link, c: Control)
    requires T1Exact(l) && !l.pending && l.state.Connecting?
    ensures T1Follows(InConnecting(l, c))
  {
    if !c.U? {
    } else if c.code == U_SABM || c.code == U_DISC {
    } else if c.code == U_UA {
      AcceptingRunsT1(l, c.pf);
    } else if c.code == U_DM {
    }
  }

  lemma DisconnectingRunsT1(l: Link, c: Control)
    requires T1Exact(l) && !l.pending && l.state.Disconnecting?
    ensures T1Follows(InDisconnecting(l, c))
  {
    if !c.U? {
    } else if c.code == U_SABM || c.code == U_SABME || c.code == U_DISC {
    } else if c.code == U_UA {
    } else if c.code == U_DM {
    }
  }

  lemma OtherStateRunsT1(l: Link, f: Frame)
    requires T1Exact(l) && !l.pending && !l.state.Connected?
    ensures T1Follows(Dispatch(l, f))
  {
    match l.state
    case Disconnected => DisconnectedRunsT1(l, f.control, f.info);
    case FrmrError => DisconnectedRunsT1(l, f.control, f.info);
    case Connecting => ConnectingRunsT1(l, f.control);
    case Disconnecting => DisconnectingRunsT1(l, f.control);
  }

  lemma FrameRunsT1(l: Link, f: Frame)
    requires T1Exact(l) && Invariant(l) && !Unrecognised(l, f)
    ensures T1Follows(Dispatch(l, f))
  {
    if l.state.Connected? {
      match f.control
      case I(ns, nr, pf) => IRunsT1(l, ns, nr, pf, f.info);
      case S(kind, nr, pf) => SRunsT1(l, f.address, kind, nr, pf);
      case U(_, _) => URunsT1(l, f);
    } else {
      OtherStateRunsT1(l, f);
    }
  }

  lemma FlushRunsT1(l: Link)
    requires ReplayDefined(l) && T1Follows(l)
    ensures T1Exact(Flush(l))
  {}

  lemma TransmitRunsT1(l: Link, p: Payload)
    requires T1Exact(l) && Invariant(l) && RingSized(l)
    ensures T1Exact(TransmitI(l, p))
  {
    if TransmitIError(l, p) == Ok {
      EnterKeeps(l.q, p);
    }
  }

  lemma T1ExpiryRunsT1(l: Link)
    requires T1Exact(l)
    ensures T1Exact(T1Expired(l))
  {
    if !RetriesExhausted(CountRetry(l)) {
      match l.state
      case Connecting =>
      case Disconnecting =>
      case Connected =>
      case FrmrError =>
      case Disconnected =>
    }
  }

  lemma OwnCallRunsT1(l: Link, c: Call)
    requires T1Exact(l) && Invariant(l) && Allowed(l, c) && !c.Receive?
    ensures T1Exact(Do(l, c))
  {
    match c
    case Transmit(p) => TransmitRunsT1(l, p);
    case T1Expiry => T1ExpiryRunsT1(l);
    case _ =>
  }

  /** At most one frame in a call, and recognised. */
  predicate Plain(l: Link, c: Call) {
    c.Receive? ==> |c.frames| <= 1 && (c.frames != [] ==> !Unrecognised(l, c.frames[0]))
  }

  lemma CallRunsT1(l: Link, c: Call)
    requires T1Exact(l) && Invariant(l) && Allowed(l, c) && Plain(l, c)
    ensures T1Exact(Do(l, c))
  {
    if !c.Receive? {
      OwnCallRunsT1(l, c);
    } else if c.frames != [] {
      assert c.frames == [c.frames[0]];
      OneDispatch(l, c.frames[0]);
      FrameRunsT1(l, c.frames[0]);
      FlushRunsT1(Dispatch(l, c.frames[0]));
    }
  }

  /** In every run of such calls T1 runs in CONNECTED if and only if something is unacknowledged in true counts, always
      in CONNECTING and DISCONNECTING, and never in DISCONNECTED. */
  lemma {:induction false} T1RunsExactly(ls: seq<Link>, calls: seq<Call>, k: nat)
    requires IsRun(ls, calls) && k < |ls|
    requires forall j: nat :: j < k ==> Plain(ls[j], calls[j])
    ensures T1Exact(ls[k])
    decreases k
  {
    if k == 0 {
    } else {
      T1RunsExactly(ls, calls, k - 1);
      RunsKeepInvariant(ls, calls, k - 1);
      assert StepAt(ls, calls, k - 1);
      CallRunsT1(ls[k - 1], calls[k - 1]);
    }
  }

  // ---------------------------------------------------------------------------------------------
  // T2
  // ---------------------------------------------------------------------------------------------

  /** The frame is answered within an exception: with the RR that the REJ before it stands behind. */
  predicate InException(l: Link, f: Frame) { f.control.I? && f.control.ns != l.q.vr && l.flags.rej }

  predicate TakenInSilence(l: Link, l': Link) { l'.q.received != l.q.received && l'.log.out == l.log.out }

  /** An I- or S-frame with a valid N(R): whatever is sent at once stops T2, but for the RR within an exception; a
      payload taken in silence starts it; and nothing else touches it. */
  predicate T2After(l: Link, f: Frame, l': Link) {
    l'.flags.t2 ==
      if TakenInSilence(l, l') then true else (l'.log.out == l.log.out || InException(l, f)) && l.flags.t2
  }

  lemma NrLeavesT2(l: Link, nr: Mod8)
    ensures ProcessNr(l, nr).flags.t2 == l.flags.t2 && ProcessNr(l, nr).log.out == l.log.out
    ensures ProcessNr(l, nr).q == l.q.(va := nr) && ProcessNr(l, nr).flags.rej == l.flags.rej
  {}

  lemma AfterNrLeavesT2(l: Link, kind: Supervisory, nr: Mod8, final: bool)
    ensures AfterFinal(AfterNr(l, kind, nr), final).flags.t2 == l.flags.t2
    ensures AfterFinal(AfterNr(l, kind, nr), final).log.out == l.log.out
    ensures AfterFinal(AfterNr(l, kind, nr), final).q.received == l.q.received
  {}

  lemma ByNsSetsT2(l: Link, f: Frame)
    requires f.control.I?
    ensures T2After(l, f, ByNs(l, f.control.ns, f.control.pf, f.info))
  {}

  lemma ISetsT2(l: Link, f: Frame)
    requires f.control.I? && NrIsValid(l.q, f.control.nr)
    ensures T2After(l, f, HandleI(l, f.control.ns, f.control.nr, f.control.pf, f.info))
  {
    NrLeavesT2(l, f.control.nr);
    ByNsSetsT2(ProcessNr(l, f.control.nr), f);
  }

  lemma BeforeNrSetsT2(l: Link, address: Octet, kind: Supervisory, pf: bool)
    ensures var m := BeforeNr(l, address, kind, pf);
      m.q == l.q && m.flags.t2 == (m.log.out == l.log.out && l.flags.t2)
  {}

  lemma SSetsT2(l: Link, f: Frame)
    requires f.control.S? && NrIsValid(l.q, f.control.nr)
    ensures T2After(l, f, HandleS(l, f.address, f.control.kind, f.control.nr, f.control.pf))
  {
    var m := BeforeNr(l, f.address, f.control.kind, f.control.pf);
    BeforeNrSetsT2(l, f.address, f.control.kind, f.control.pf);
    AfterNrLeavesT2(m, f.control.kind, f.control.nr, !IsCommand(l, f.address) && f.control.pf);
  }

  lemma FramesSetT2(l: Link, f: Frame)
    requires l.state.Connected? && !f.control.U? && NrIsValid(l.q, f.control.nr)
    ensures T2After(l, f, Dispatch(l, f))
  {
    match f.control
    case I(_, _, _) => ISetsT2(l, f);
    case S(_, _, _) => SSetsT2(l, f);
  }
}

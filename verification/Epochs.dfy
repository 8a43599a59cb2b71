/** What happens between two resets: nothing accepted or delivered is forgotten, and V(A) only goes forward.
  */
module Epochs {
  import opened Crc
  import opened Frame
  import opened Link
  import opened Runs

  /** Nothing accepted or delivered is taken back, and acknowledgements only move on, never past what
      had been accepted before the step. */
  predicate Advances(q: Sequence, q': Sequence) {
    && q.accepted <= q'.accepted && q.received <= q'.received
    && Acked(q) <= Acked(q') <= |q'.accepted|
  }

  lemma ReceiptAdvances(state: State, q: Sequence, f: Frame)
    requires Sequenced(q) && !Resets(state, f.control)
    ensures Advances(q, SequenceAfter(state, q, f)) && SequenceAfter(state, q, f).accepted == q.accepted
  {
    match f.control
    case I(ns, nr, pf) =>
      if NrIsValid(q, nr) {
        AckKeeps(q, nr);
      }
    case S(kind, nr, pf) =>
      if NrIsValid(q, nr) {
        AckKeeps(q, nr);
      }
    case U(_, _) =>
  }

  lemma {:induction false} ReceiptsAdvance(l: Link, fs: seq<Frame>)
    requires Inside(l)
    ensures DispatchAll(l, fs).epoch >= l.epoch
    ensures DispatchAll(l, fs).epoch == l.epoch ==>
      Advances(l.q, DispatchAll(l, fs).q) && DispatchAll(l, fs).q.accepted == l.q.accepted
  {
    if fs != [] {
      ReceiptsAdvance(l, fs[..|fs| - 1]);
      LastReceiptAdvances(l, DispatchAll(l, fs[..|fs| - 1]), fs[|fs| - 1], fs[..|fs| - 1]);
    }
  }

  lemma LastReceiptAdvances(l: Link, m: Link, f: Frame, fs: seq<Frame>)
    requires Inside(l) && m == DispatchAll(l, fs) && m.epoch >= l.epoch
    requires m.epoch == l.epoch ==> Advances(l.q, m.q) && m.q.accepted == l.q.accepted
    ensures Dispatch(m, f).epoch >= l.epoch
    ensures Dispatch(m, f).epoch == l.epoch ==>
      Advances(l.q, Dispatch(m, f).q) && Dispatch(m, f).q.accepted == l.q.accepted
  {
    DispatchAllKeepsInside(l, fs);
    DispatchBookkeeping(m, f);
    DispatchSequence(m, f);
    if !Resets(m.state, f.control) {
      ReceiptAdvances(m.state, m.q, f);
    }
  }

  lemma TransmissionAdvances(l: Link, p: Payload)
    requires Invariant(l) && RingSized(l)
    ensures TransmitI(l, p).epoch == l.epoch && Advances(l.q, TransmitI(l, p).q)
    ensures Acked(TransmitI(l, p).q) == Acked(l.q)
  {
    if TransmitIError(l, p) == Ok {
      EnterKeeps(l.q, p);
    }
  }

  /** One call: a new epoch, or the same one further on. */
  lemma StepAdvances(l: Link, c: Call)
    requires Invariant(l) && Allowed(l, c)
    ensures Do(l, c).epoch >= l.epoch
    ensures Do(l, c).epoch == l.epoch ==> Advances(l.q, Do(l, c).q) && Acked(Do(l, c).q) <= |l.q.accepted|
  {
    match c
    case Receive(frames) => ReceiptsAdvance(l, frames);
    case Transmit(p) => TransmissionAdvances(l, p);
    case _ =>
  }

  /** Over any stretch of a run without a reset, histories grow and acknowledgements advance. */
  lemma {:induction false} EpochsAdvance(ls: seq<Link>, calls: seq<Call>, j: nat, k: nat)
    requires IsRun(ls, calls) && j <= k < |ls|
    ensures ls[j].epoch <= ls[k].epoch
    ensures ls[j].epoch == ls[k].epoch ==> Advances(ls[j].q, ls[k].q)
    decreases k
  {
    if j < k {
      EpochsAdvance(ls, calls, j, k - 1);
      RunsKeepInvariant(ls, calls, k - 1);
      assert StepAt(ls, calls, k - 1);
      StepAdvances(ls[k - 1], calls[k - 1]);
    }
  }

  lemma TakingDelivers(l: Link, ns: Mod8, pf: bool, info: Payload)
    ensures ByNs(l, ns, pf, info).log.delivered == l.log.delivered + (if ns == l.q.vr then [info] else [])
    ensures ByNs(l, ns, pf, info).q.received == l.q.received + (if ns == l.q.vr then [info] else [])
  {}

  lemma IDelivers(l: Link, ns: Mod8, nr: Mod8, pf: bool, info: Payload)
    requires NrIsValid(l.q, nr)
    ensures HandleI(l, ns, nr, pf, info).log.delivered == l.log.delivered + (if ns == l.q.vr then [info] else [])
    ensures HandleI(l, ns, nr, pf, info).q.received == l.q.received + (if ns == l.q.vr then [info] else [])
  {
    TakingDelivers(ProcessNr(l, nr), ns, pf, info);
  }

  lemma RejectedDelivers(l: Link, ns: Mod8, nr: Mod8, pf: bool, info: Payload)
    requires !NrIsValid(l.q, nr)
    ensures HandleI(l, ns, nr, pf, info).log.delivered == l.log.delivered
    ensures HandleI(l, ns, nr, pf, info).q.received == l.q.received
  {}

  /** The history of received payloads is what on_data was given from I-frames: just those with a valid N(R)
      and N(S) = V(R), each once. */
  lemma IFramesDeliver(l: Link, f: Frame)
    requires l.state.Connected? && f.control.I?
    ensures var taken := if NrIsValid(l.q, f.control.nr) && f.control.ns == l.q.vr then [f.info] else [];
      Dispatch(l, f).log.delivered == l.log.delivered + taken && Dispatch(l, f).q.received == l.q.received + taken
  {
    if NrIsValid(l.q, f.control.nr) {
      IDelivers(l, f.control.ns, f.control.nr, f.control.pf, f.info);
    } else {
      RejectedDelivers(l, f.control.ns, f.control.nr, f.control.pf, f.info);
    }
  }

  // ---------------------------------------------------------------------------------------------
  // How a connection begins
  // ---------------------------------------------------------------------------------------------

  predicate Fresh(l: Link) {
    && l.q.vs == l.q.vr == l.q.va == l.q.nextSlot == 0 && l.q.accepted == l.q.received == []
    && l.flags == QUIET && l.n2 == 0 && l.log.told == 0
  }

  predicate Enters(l: Link, l': Link) { l'.state.Connected? && !(l.state.Connected? && l'.epoch == l.epoch) }

  lemma ResettingUEnters(l: Link, address: Octet, code: Octet, pf: bool, info: Payload, emptied: bool)
    requires ResetBy(Connected, code, pf) && HandleU(l, address, code, pf, info, emptied).state.Connected?
    ensures Fresh(HandleU(l, address, code, pf, info, emptied))
  {}

  lemma UnconnectedFrameEnters(l: Link, c: Control, info: Payload)
    ensures l.state.Disconnected? && InDisconnected(l, c, info).state.Connected? ==> Fresh(InDisconnected(l, c, info))
    ensures l.state.FrmrError? && InFrmrError(l, c).state.Connected? ==> Fresh(InFrmrError(l, c))
  {}

  lemma PassingFrameEnters(l: Link, c: Control)
    ensures l.state.Connecting? && InConnecting(l, c).state.Connected? ==>
      Fresh(InConnecting(l, c)) && Resets(Connecting, c)
    ensures l.state.Disconnecting? ==> !InDisconnecting(l, c).state.Connected?
  {}

  lemma ConnectingFrameResets(l: Link, c: Control, info: Payload)
    ensures l.state.Disconnected? && InDisconnected(l, c, info).state.Connected? ==> Resets(Disconnected, c)
    ensures l.state.FrmrError? && InFrmrError(l, c).state.Connected? ==> Resets(FrmrError, c)
  {}

  /** Each way into CONNECTED by a received frame starts a new epoch with everything reset. */
  lemma ConnectionsStartFresh(l: Link, f: Frame)
    requires Enters(l, Dispatch(l, f))
    ensures Fresh(Dispatch(l, f)) && Dispatch(l, f).epoch == l.epoch + 1
  {
    DispatchBookkeeping(l, f);
    match l.state
    case Connected => ResettingUEnters(l, f.address, f.control.code, f.control.pf, f.info, f.emptied);
    case Disconnected =>
      UnconnectedFrameEnters(l, f.control, f.info);
      ConnectingFrameResets(l, f.control, f.info);
    case FrmrError =>
      UnconnectedFrameEnters(l, f.control, f.info);
      ConnectingFrameResets(l, f.control, f.info);
    case Connecting => PassingFrameEnters(l, f.control);
    case Disconnecting => PassingFrameEnters(l, f.control);
  }

  /** No other call connects. */
  lemma OnlyFramesConnect(l: Link, c: Call)
    requires Allowed(l, c) && !c.Receive?
    ensures !Enters(l, Do(l, c))
  {}
}

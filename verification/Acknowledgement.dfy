/** What a receiver owes its peer: an acknowledgement within T2, and one REJ for each exception.
  */
module Acknowledgement {
  import opened Crc
  import opened Frame
  import opened Link
  import opened Runs
  import opened Epochs
  import Replay

  // ---------------------------------------------------------------------------------------------
  // The acknowledgement debt
  // ---------------------------------------------------------------------------------------------

  predicate InDebt(l: Link) { l.state.Connected? && l.log.told != |l.q.received| }

  /** A payload that no N(R) sent has covered keeps T2 running. */
  predicate DebtCovered(l: Link) { InDebt(l) ==> l.flags.t2 }

  lemma IKeepsDebt(l: Link, ns: Mod8, nr: Mod8, pf: bool, info: Payload)
    requires DebtCovered(l) && l.state.Connected?
    ensures DebtCovered(HandleI(l, ns, nr, pf, info))
  {}

  lemma SKeepsDebt(l: Link, address: Octet, kind: Supervisory, nr: Mod8, pf: bool)
    requires DebtCovered(l) && l.state.Connected?
    ensures DebtCovered(HandleS(l, address, kind, nr, pf))
  {}

  lemma UKeepsDebt(l: Link, address: Octet, code: Octet, pf: bool, info: Payload, emptied: bool)
    requires DebtCovered(l) && l.state.Connected?
    ensures DebtCovered(HandleU(l, address, code, pf, info, emptied)) <==> IsRecognised(code) || !InDebt(l)
  {}

  lemma UnconnectedKeepsDebt(l: Link, c: Control, info: Payload)
    ensures l.state.Disconnected? ==> DebtCovered(InDisconnected(l, c, info))
    ensures l.state.FrmrError? ==> DebtCovered(InFrmrError(l, c))
  {}

  lemma PassingKeepsDebt(l: Link, c: Control)
    ensures l.state.Connecting? ==> DebtCovered(InConnecting(l, c))
    ensures l.state.Disconnecting? ==> DebtCovered(InDisconnecting(l, c))
  {}

  /** The frames that make a connected station answer with FRMR W. */
  predicate Unrecognised(l: Link, f: Frame) {
    l.state.Connected? && f.control.U? && !IsRecognised(f.control.code)
  }

  /** A received frame drops the debt exactly when it is an unrecognised U-frame and there is a debt. */
  lemma DispatchDropsDebt(l: Link, f: Frame)
    requires DebtCovered(l)
    ensures DebtCovered(Dispatch(l, f)) <==> !(Unrecognised(l, f) && InDebt(l))
  {
    match l.state
    case Connected =>
      match f.control {
        case I(ns, nr, pf) => IKeepsDebt(l, ns, nr, pf, f.info);
        case S(kind, nr, pf) => SKeepsDebt(l, f.address, kind, nr, pf);
        case U(code, pf) => UKeepsDebt(l, f.address, code, pf, f.info, f.emptied);
      }
    case Disconnected => UnconnectedKeepsDebt(l, f.control, f.info);
    case FrmrError => UnconnectedKeepsDebt(l, f.control, f.info);
    case Connecting => PassingKeepsDebt(l, f.control);
    case Disconnecting => PassingKeepsDebt(l, f.control);
  }

  /** No frame of the call is unrecognised in the state that it meets. */
  predicate NoneUnrecognised(l: Link, fs: seq<Frame>) {
    fs != [] ==>
      NoneUnrecognised(l, fs[..|fs| - 1]) && !Unrecognised(DispatchAll(l, fs[..|fs| - 1]), fs[|fs| - 1])
  }

  lemma {:induction false} FramesKeepDebt(l: Link, fs: seq<Frame>)
    requires DebtCovered(l) && NoneUnrecognised(l, fs)
    ensures DebtCovered(DispatchAll(l, fs))
  {
    if fs != [] {
      FramesKeepDebt(l, fs[..|fs| - 1]);
      DispatchDropsDebt(DispatchAll(l, fs[..|fs| - 1]), fs[|fs| - 1]);
    }
  }

  lemma TransmitKeepsDebt(l: Link, p: Payload)
    requires DebtCovered(l) && RingSized(l)
    ensures DebtCovered(TransmitI(l, p))
  {}

  lemma T1KeepsDebt(l: Link)
    requires DebtCovered(l)
    ensures DebtCovered(T1Expired(l))
  {}

  /** When T2 goes off the debt is paid. */
  lemma T2PaysDebt(l: Link)
    ensures !InDebt(T2Expired(l))
  {}

  lemma UserCallsKeepDebt(l: Link, c: Call)
    requires DebtCovered(l) && Allowed(l, c)
    requires c.Busy? || c.Setup? || c.Disc? || c.Reset? || c.AbortAll? || c.Ui? || c.Test?
    ensures DebtCovered(Do(l, c))
  {}

  lemma StepKeepsDebt(l: Link, c: Call)
    requires DebtCovered(l) && Allowed(l, c) && (c.Receive? ==> NoneUnrecognised(l, c.frames))
    ensures DebtCovered(Do(l, c))
  {
    match c
    case Receive(frames) => FramesKeepDebt(l, frames);
    case Transmit(p) => TransmitKeepsDebt(l, p);
    case T1Expiry => T1KeepsDebt(l);
    case T2Expiry => T2PaysDebt(l);
    case _ => UserCallsKeepDebt(l, c);
  }

  /** In every run in which no frame is unrecognised in the state that it meets, a connected station's debt keeps
      T2 running. */
  lemma {:induction false} RunsKeepDebt(ls: seq<Link>, calls: seq<Call>, k: nat)
    requires IsRun(ls, calls) && k < |ls|
    requires forall j: nat :: j < k && calls[j].Receive? ==> NoneUnrecognised(ls[j], calls[j].frames)
    ensures DebtCovered(ls[k])
    decreases k
  {
    if k == 0 {
    } else {
      RunsKeepDebt(ls, calls, k - 1);
      assert StepAt(ls, calls, k - 1);
      StepKeepsDebt(ls[k - 1], calls[k - 1]);
    }
  }

  /** A station just connected takes payload 7 and owes an acknowledgement. */
  lemma ExampleOwes(l: Link)
    requires l.state.Connected? && Fresh(l) && !l.pending
    ensures Allowed(l, Receive([Frame(1, I(0, 0, false), [7])]))
    ensures var m := Do(l, Receive([Frame(1, I(0, 0, false), [7])]));
      InDebt(m) && m.flags.t2 && !m.pending
  {
    OneDispatch(l, Frame(1, I(0, 0, false), [7]));
  }

  /** A UA, which CONNECTED does not recognise, then stops T2. */
  lemma ExampleForgets(l: Link)
    requires InDebt(l) && l.flags.t2 && !l.pending
    ensures Allowed(l, Receive([Frame(1, U(U_UA, false), [])]))
    ensures var m := Do(l, Receive([Frame(1, U(U_UA, false), [])]));
      InDebt(m) && !m.flags.t2
  {
    OneDispatch(l, Frame(1, U(U_UA, false), []));
    DispatchDropsDebt(l, Frame(1, U(U_UA, false), []));
  }

  /** A run that ends with an acknowledgement owed and T2 off: a SABM, an I-frame, and a UA. */
  lemma ExampleDropsDebt() returns (ls: seq<Link>, calls: seq<Call>)
    ensures IsRun(ls, calls) && |ls| == 4 && InDebt(ls[2]) && ls[2].flags.t2
    ensures calls[2] == Receive([Frame(1, U(U_UA, false), [])]) && InDebt(ls[3]) && !ls[3].flags.t2
  {
    var l := Replay.ExampleConnects();
    ExampleOwes(l);
    var m := Do(l, Receive([Frame(1, I(0, 0, false), [7])]));
    ExampleForgets(m);
    ls := [Initial(Replay.EXAMPLE, NoPayloads(3)), l, m, Do(m, Receive([Frame(1, U(U_UA, false), [])]))];
    calls := [Receive([Frame(1, U(U_SABM, true), [])]), Receive([Frame(1, I(0, 0, false), [7])]),
              Receive([Frame(1, U(U_UA, false), [])])];
    ThreeCalls(ls, calls);
  }

  // ---------------------------------------------------------------------------------------------
  // One REJ for each exception
  // ---------------------------------------------------------------------------------------------

  predicate IsRej(s: Sent) { s.Sent? && s.frame.control.S? && s.frame.control.kind == REJ }

  /** How many REJ frames a history holds. */
  function Rejs(out: seq<Sent>): nat {
    if out == [] then 0 else Rejs(out[..|out| - 1]) + (if IsRej(out[|out| - 1]) then 1 else 0)
  }

  lemma RejsOfOneMore(out: seq<Sent>, s: Sent)
    ensures Rejs(out + [s]) == Rejs(out) + (if IsRej(s) then 1 else 0)
  {
    assert (out + [s])[..|out|] == out;
  }

  lemma {:induction false} RejsOfNone(out: seq<Sent>, more: seq<Sent>)
    requires forall s :: s in more ==> !IsRej(s)
    ensures Rejs(out + more) == Rejs(out)
  {
    if more == [] {
      assert out + more == out;
    } else {
      RejsOfNone(out, more[..|more| - 1]);
      RejsOfOneMore(out + more[..|more| - 1], more[|more| - 1]);
      assert out + more == out + more[..|more| - 1] + [more[|more| - 1]];
    }
  }

  /** The REJ frames sent, and the one that may yet be sent in the present exception. */
  function RejBudget(l: Link): nat { Rejs(l.log.out) + (if l.flags.rej then 0 else 1) }

  /** Whatever was sent on top of a history, it was no REJ. */
  predicate NoneAdded(out: seq<Sent>, out': seq<Sent>) {
    out <= out' && forall k :: |out| <= k < |out'| ==> !IsRej(out'[k])
  }

  lemma NoneAddedTwice(a: seq<Sent>, b: seq<Sent>, c: seq<Sent>)
    requires NoneAdded(a, b) && NoneAdded(b, c)
    ensures NoneAdded(a, c)
  {}

  /** No REJ was sent and no exception ended; or the one REJ was sent that begins an exception. */
  predicate Spends(l: Link, l': Link) {
    || (NoneAdded(l.log.out, l'.log.out) && (l.flags.rej ==> l'.flags.rej))
    || (!l.flags.rej && l'.flags.rej && l.log.out <= l'.log.out && |l'.log.out| == |l.log.out| + 1)
  }

  lemma NoneAddedCounts(out: seq<Sent>, out': seq<Sent>)
    requires NoneAdded(out, out')
    ensures Rejs(out') == Rejs(out)
  {
    assert out' == out + out'[|out|..];
    RejsOfNone(out, out'[|out|..]);
  }

  lemma OneAddedCounts(out: seq<Sent>, out': seq<Sent>)
    requires out <= out' && |out'| == |out| + 1
    ensures Rejs(out') <= Rejs(out) + 1
  {
    assert out' == out + [out'[|out|]];
    RejsOfOneMore(out, out'[|out|]);
  }

  lemma SpendingIsBounded(l: Link, l': Link)
    requires Spends(l, l')
    ensures RejBudget(l') <= RejBudget(l)
  {
    if NoneAdded(l.log.out, l'.log.out) {
      NoneAddedCounts(l.log.out, l'.log.out);
    } else {
      OneAddedCounts(l.log.out, l'.log.out);
    }
  }

  lemma RejectSpends(l: Link, c: Control)
    ensures NoneAdded(l.log.out, RejectNr(l, c).log.out) && RejectNr(l, c).flags.rej == l.flags.rej
  {}

  lemma NrSpends(l: Link, kind: Supervisory, nr: Mod8)
    ensures AfterNr(l, kind, nr).log.out == ProcessNr(l, nr).log.out == l.log.out
    ensures AfterNr(l, kind, nr).flags.rej == ProcessNr(l, nr).flags.rej == l.flags.rej
  {}

  lemma BeforeNrSpends(l: Link, address: Octet, kind: Supervisory, pf: bool)
    ensures NoneAdded(l.log.out, BeforeNr(l, address, kind, pf).log.out)
    ensures BeforeNr(l, address, kind, pf).flags.rej == l.flags.rej
  {}

  lemma OutOfSequenceSpends(l: Link, pf: bool)
    ensures Spends(l, OutOfSequence(l, pf))
  {}

  lemma ISpends(l: Link, ns: Mod8, nr: Mod8, pf: bool, info: Payload)
    requires !(NrIsValid(l.q, nr) && ns == l.q.vr)
    ensures Spends(l, HandleI(l, ns, nr, pf, info))
  {
    RejectSpends(l, I(ns, nr, pf));
    NrSpends(l, RR, nr);
    OutOfSequenceSpends(ProcessNr(l, nr), pf);
  }

  lemma SSpends(l: Link, address: Octet, kind: Supervisory, nr: Mod8, pf: bool)
    ensures Spends(l, HandleS(l, address, kind, nr, pf))
  {
    BeforeNrSpends(l, address, kind, pf);
    if NrIsValid(l.q, nr) {
      NrSpends(BeforeNr(l, address, kind, pf), kind, nr);
    } else {
      RejectSpends(BeforeNr(l, address, kind, pf), S(kind, nr, pf));
      NoneAddedTwice(l.log.out, BeforeNr(l, address, kind, pf).log.out, HandleS(l, address, kind, nr, pf).log.out);
    }
  }

  lemma USpends(l: Link, address: Octet, code: Octet, pf: bool, info: Payload, emptied: bool)
    requires !ResetBy(Connected, code, pf)
    ensures Spends(l, HandleU(l, address, code, pf, info, emptied))
  {}

  lemma UnconnectedSpends(l: Link, c: Control, info: Payload)
    ensures Resets(Disconnected, c) || Spends(l, InDisconnected(l, c, info))
    ensures Resets(FrmrError, c) || Spends(l, InFrmrError(l, c))
  {}

  lemma ConnectingSpends(l: Link, c: Control)
    ensures Resets(Connecting, c) || Spends(l, InConnecting(l, c))
  {}

  lemma DisconnectingSpends(l: Link, c: Control)
    ensures Spends(l, InDisconnecting(l, c))
  {
    if !c.U? {
    } else if c.code == U_SABM || c.code == U_SABME {
    } else if c.code == U_DISC {
    } else if c.code == U_UA {
    } else if c.code == U_DM {
    }
  }

  /** A received frame takes a payload, resets the link, or stays within the budget. */
  lemma DispatchSpends(l: Link, f: Frame)
    ensures Resets(l.state, f.control) || |Dispatch(l, f).q.received| > |l.q.received| || Spends(l, Dispatch(l, f))
  {
    match l.state
    case Connected =>
      match f.control {
        case I(ns, nr, pf) =>
          if !(NrIsValid(l.q, nr) && ns == l.q.vr) {
            ISpends(l, ns, nr, pf, f.info);
          }
          ISequence(l, ns, nr, pf, f.info);
        case S(kind, nr, pf) => SSpends(l, f.address, kind, nr, pf);
        case U(code, pf) =>
          if !ResetBy(Connected, code, pf) {
            USpends(l, f.address, code, pf, f.info, f.emptied);
          }
      }
    case Disconnected => UnconnectedSpends(l, f.control, f.info);
    case FrmrError => UnconnectedSpends(l, f.control, f.info);
    case Connecting => ConnectingSpends(l, f.control);
    case Disconnecting => DisconnectingSpends(l, f.control);
  }

  /** Neither a payload taken nor a reset between two states. */
  predicate SameException(l: Link, l': Link) { l'.epoch == l.epoch && |l'.q.received| == |l.q.received| }

  lemma {:induction false} FramesStayInBudget(l: Link, fs: seq<Frame>)
    requires Inside(l) && SameException(l, DispatchAll(l, fs))
    ensures RejBudget(DispatchAll(l, fs)) <= RejBudget(l)
  {
    if fs != [] {
      var rest := fs[..|fs| - 1];
      ReceiptsAdvance(l, rest);
      DispatchAllKeepsInside(l, rest);
      LastFrameStaysInBudget(l, DispatchAll(l, rest), fs[|fs| - 1]);
      FramesStayInBudget(l, rest);
    }
  }

  lemma LastFrameStaysInBudget(l: Link, m: Link, f: Frame)
    requires Inside(m) && m.epoch >= l.epoch && (m.epoch == l.epoch ==> |m.q.received| >= |l.q.received|)
    requires SameException(l, Dispatch(m, f))
    ensures SameException(l, m) && RejBudget(Dispatch(m, f)) <= RejBudget(m)
  {
    DispatchBookkeeping(m, f);
    DispatchSequence(m, f);
    DispatchSpends(m, f);
    if !Resets(m.state, f.control) {
      ReceiptAdvances(m.state, m.q, f);
    }
    SpendingIsBounded(m, Dispatch(m, f));
  }

  lemma FlushSpends(l: Link)
    requires ReplayDefined(l)
    ensures Spends(l, Flush(l))
  {}

  lemma TransmitSpends(l: Link, p: Payload)
    requires RingSized(l)
    ensures Spends(l, TransmitI(l, p))
  {}

  lemma RetrySpends(l: Link)
    ensures Spends(l, Retry(l))
  {
    match l.state
    case Connecting =>
    case Disconnecting =>
    case Connected =>
    case FrmrError =>
    case Disconnected =>
  }

  lemma T1Spends(l: Link)
    ensures RetriesExhausted(CountRetry(l)) || Spends(l, T1Expired(l))
  {
    RetrySpends(CountRetry(l));
  }

  lemma FailureEndsEpoch(l: Link)
    requires RetriesExhausted(CountRetry(l))
    ensures T1Expired(l).epoch == l.epoch + 1
  {}

  lemma AnswersSpend(l: Link, busy: bool)
    ensures Spends(l, T2Expired(l)) && Spends(l, SetLocalBusy(l, busy))
  {}

  lemma SetupSpends(l: Link, address: Octet)
    ensures Spends(l, LinkSetup(l, address))
  {}

  lemma DisconnectSpends(l: Link)
    ensures Spends(l, Disconnect(l))
  {}

  lemma DatagramsSpend(l: Link, address: Octet, p: Payload)
    ensures Spends(l, TransmitUi(l, address, p)) && Spends(l, TransmitTest(l, address, p))
  {}

  lemma ResetsEndEpoch(l: Link)
    ensures LinkReset(l).epoch == Abort(l).epoch == l.epoch + 1
  {}

  lemma StepStaysInBudget(l: Link, c: Call)
    requires Invariant(l) && Allowed(l, c) && SameException(l, Do(l, c))
    ensures RejBudget(Do(l, c)) <= RejBudget(l)
  {
    match c
    case Receive(frames) =>
      FramesStayInBudget(l, frames);
      FlushSpends(DispatchAll(l, frames));
      SpendingIsBounded(DispatchAll(l, frames), Do(l, c));
    case Transmit(p) =>
      TransmitSpends(l, p);
      SpendingIsBounded(l, Do(l, c));
    case T1Expiry =>
      T1Spends(l);
      if RetriesExhausted(CountRetry(l)) {
        FailureEndsEpoch(l);
      } else {
        SpendingIsBounded(l, Do(l, c));
      }
    case T2Expiry =>
      AnswersSpend(l, false);
      SpendingIsBounded(l, Do(l, c));
    case Busy(busy) =>
      AnswersSpend(l, busy);
      SpendingIsBounded(l, Do(l, c));
    case Setup(address) =>
      SetupSpends(l, address);
      SpendingIsBounded(l, Do(l, c));
    case Disc =>
      DisconnectSpends(l);
      SpendingIsBounded(l, Do(l, c));
    case Ui(address, p) =>
      DatagramsSpend(l, address, p);
      SpendingIsBounded(l, Do(l, c));
    case Test(address, p) =>
      DatagramsSpend(l, address, p);
      SpendingIsBounded(l, Do(l, c));
    case Reset => ResetsEndEpoch(l);
    case AbortAll => ResetsEndEpoch(l);
  }

  lemma LastStepStaysInBudget(first: Link, l: Link, c: Call)
    requires Invariant(l) && Allowed(l, c) && SameException(first, Do(l, c))
    requires first.epoch <= l.epoch && (first.epoch == l.epoch ==> first.q.received <= l.q.received)
    ensures SameException(first, l) && RejBudget(Do(l, c)) <= RejBudget(l)
  {
    StepAdvances(l, c);
    StepStaysInBudget(l, c);
  }

  /** Over any stretch of a run in which no payload is taken and the link is not reset, at most one REJ is
      sent, and none if the exception had begun. */
  lemma {:induction false} OneRejPerException(ls: seq<Link>, calls: seq<Call>, j: nat, k: nat)
    requires IsRun(ls, calls) && j <= k < |ls| && SameException(ls[j], ls[k])
    ensures Rejs(ls[k].log.out) + (if ls[k].flags.rej then 0 else 1)
      <= Rejs(ls[j].log.out) + (if ls[j].flags.rej then 0 else 1)
    decreases k
  {
    if j < k {
      EpochsAdvance(ls, calls, j, k - 1);
      RunsKeepInvariant(ls, calls, k - 1);
      assert StepAt(ls, calls, k - 1);
      LastStepStaysInBudget(ls[j], ls[k - 1], calls[k - 1]);
      OneRejPerException(ls, calls, j, k - 1);
    }
  }

  // The same from any moment within a call to any later moment within a call.

  predicate InCall(c: Call, i: nat) { if c.Receive? then i <= |c.frames| else i == 0 }

  /** The state after the first i frames of a call. */
  function Within(l: Link, c: Call, i: nat): Link
    requires InCall(c, i)
  {
    if c.Receive? then DispatchAll(l, c.frames[..i]) else l
  }

  predicate NotBefore(l: Link, l': Link) {
    l.epoch <= l'.epoch && (l.epoch == l'.epoch ==> |l.q.received| <= |l'.q.received|)
  }

  /** Later, and within the budget as long as the exception lasts. */
  predicate Onward(l: Link, l': Link) {
    NotBefore(l, l') && (SameException(l, l') ==> RejBudget(l') <= RejBudget(l))
  }

  lemma OnwardTwice(a: Link, b: Link, c: Link)
    requires Onward(a, b) && Onward(b, c)
    ensures Onward(a, c)
  {}

  lemma FramesGoOnward(l: Link, fs: seq<Frame>)
    requires Inside(l)
    ensures Onward(l, DispatchAll(l, fs))
  {
    ReceiptsAdvance(l, fs);
    if SameException(l, DispatchAll(l, fs)) {
      FramesStayInBudget(l, fs);
    }
  }

  lemma FlushGoesOnward(l: Link)
    requires ReplayDefined(l)
    ensures Onward(l, Flush(l))
  {
    FlushSpends(l);
    SpendingIsBounded(l, Flush(l));
  }

  lemma MoreFramesGoOnward(l: Link, fs: seq<Frame>, gs: seq<Frame>, m: Link, m': Link)
    requires Inside(l) && m == DispatchAll(l, fs) && m' == DispatchAll(l, fs + gs)
    ensures Onward(m, m')
  {
    DispatchAllKeepsInside(l, fs);
    FramesGoOnward(m, gs);
    DispatchInParts(l, fs, gs);
  }

  lemma RestOfFramesGoesOnward(l: Link, fs: seq<Frame>, i: nat)
    requires Inside(l) && i <= |fs|
    ensures Onward(DispatchAll(l, fs[..i]), DispatchAll(l, fs))
  {
    assert fs[..i] + fs[i..] == fs;
    MoreFramesGoOnward(l, fs[..i], fs[i..], DispatchAll(l, fs[..i]), DispatchAll(l, fs));
  }

  lemma WholeCallGoesOnward(l: Link, c: Call)
    requires Invariant(l) && Allowed(l, c)
    ensures Onward(l, Do(l, c))
  {
    StepAdvances(l, c);
    if SameException(l, Do(l, c)) {
      StepStaysInBudget(l, c);
    }
  }

  lemma RestOfCallGoesOnward(l: Link, c: Call, i: nat)
    requires Invariant(l) && Allowed(l, c) && InCall(c, i)
    ensures Onward(Within(l, c, i), Do(l, c))
  {
    if c.Receive? {
      RestOfFramesGoesOnward(l, c.frames, i);
      FlushGoesOnward(DispatchAll(l, c.frames));
      OnwardTwice(Within(l, c, i), DispatchAll(l, c.frames), Do(l, c));
    } else {
      WholeCallGoesOnward(l, c);
    }
  }

  lemma PartOfCallGoesOnward(l: Link, c: Call, i: nat, j: nat)
    requires Invariant(l) && InCall(c, i) && InCall(c, j) && i <= j
    ensures Onward(Within(l, c, i), Within(l, c, j))
  {
    if c.Receive? {
      assert c.frames[..i] + c.frames[i..j] == c.frames[..j];
      MoreFramesGoOnward(l, c.frames[..i], c.frames[i..j], Within(l, c, i), Within(l, c, j));
    }
  }

  lemma CallsGoOnward(ls: seq<Link>, calls: seq<Call>, j: nat, k: nat)
    requires IsRun(ls, calls) && j <= k < |ls|
    ensures Onward(ls[j], ls[k])
  {
    EpochsAdvance(ls, calls, j, k);
    if SameException(ls[j], ls[k]) {
      OneRejPerException(ls, calls, j, k);
    }
  }

  lemma CallEndsOnward(ls: seq<Link>, calls: seq<Call>, j: nat, i: nat)
    requires IsRun(ls, calls) && j < |calls| && InCall(calls[j], i)
    ensures Onward(Within(ls[j], calls[j], i), ls[j + 1])
  {
    RunsKeepInvariant(ls, calls, j);
    assert StepAt(ls, calls, j);
    RestOfCallGoesOnward(ls[j], calls[j], i);
  }

  lemma CallBeginsOnward(ls: seq<Link>, calls: seq<Call>, k: nat, i: nat)
    requires IsRun(ls, calls) && k < |calls| && InCall(calls[k], i)
    ensures Onward(ls[k], Within(ls[k], calls[k], i))
  {
    RunsKeepInvariant(ls, calls, k);
    PartOfCallGoesOnward(ls[k], calls[k], 0, i);
    assert calls[k].Receive? ==> calls[k].frames[..0] == [];
  }

  /** Between any two moments of a run, also within calls of `data_in`, with no payload taken and no reset in
      between, at most one REJ is sent, and none if the exception had begun. */
  lemma OneRejBetweenMoments(ls: seq<Link>, calls: seq<Call>, j: nat, i: nat, k: nat, n: nat)
    requires IsRun(ls, calls) && j <= k < |calls| && InCall(calls[j], i) && InCall(calls[k], n) && (j == k ==> i <= n)
    requires SameException(Within(ls[j], calls[j], i), Within(ls[k], calls[k], n))
    ensures RejBudget(Within(ls[k], calls[k], n)) <= RejBudget(Within(ls[j], calls[j], i))
  {
    if j == k {
      RunsKeepInvariant(ls, calls, j);
      PartOfCallGoesOnward(ls[j], calls[j], i, n);
    } else {
      CallEndsOnward(ls, calls, j, i);
      CallsGoOnward(ls, calls, j + 1, k);
      CallBeginsOnward(ls, calls, k, n);
      OnwardTwice(Within(ls[j], calls[j], i), ls[j + 1], ls[k]);
      OnwardTwice(Within(ls[j], calls[j], i), ls[k], Within(ls[k], calls[k], n));
    }
  }
}

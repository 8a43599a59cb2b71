/** How long a station tries: the retry count n2 of src/hdlc_station.c over whole runs.
  */
module Retries {
  import opened Crc
  import opened Frame
  import opened Link
  import opened Runs
  import opened Epochs

  /** No reset and no new acknowledgement between two states. */
  predicate Silent(l: Link, l': Link) { l'.epoch == l.epoch && Acked(l'.q) == Acked(l.q) }

  // ---------------------------------------------------------------------------------------------
  // Only acknowledgements and resets restart the count
  // ---------------------------------------------------------------------------------------------

  lemma ICounts(l: Link, ns: Mod8, nr: Mod8, pf: bool, info: Payload)
    ensures HandleI(l, ns, nr, pf, info).n2 == l.n2 || HandleI(l, ns, nr, pf, info).q.va != l.q.va
  {}

  lemma SCounts(l: Link, address: Octet, kind: Supervisory, nr: Mod8, pf: bool)
    ensures HandleS(l, address, kind, nr, pf).n2 == l.n2 || HandleS(l, address, kind, nr, pf).q.va != l.q.va
  {}

  lemma UCounts(l: Link, address: Octet, code: Octet, pf: bool, info: Payload, emptied: bool)
    requires !ResetBy(Connected, code, pf)
    ensures HandleU(l, address, code, pf, info, emptied).n2 == l.n2
  {}

  lemma UnconnectedCounts(l: Link, c: Control, info: Payload)
    ensures Resets(Disconnected, c) || InDisconnected(l, c, info).n2 == l.n2
    ensures Resets(FrmrError, c) || InFrmrError(l, c).n2 == l.n2
  {}

  lemma PassingCounts(l: Link, c: Control)
    ensures Resets(Connecting, c) || InConnecting(l, c).n2 == l.n2
    ensures InDisconnecting(l, c).n2 == l.n2
  {}

  lemma DispatchCounts(l: Link, f: Frame)
    requires !Resets(l.state, f.control)
    ensures Dispatch(l, f).n2 == l.n2 || Dispatch(l, f).q.va != l.q.va
  {
    match l.state
    case Connected =>
      match f.control {
        case I(ns, nr, pf) => ICounts(l, ns, nr, pf, f.info);
        case S(kind, nr, pf) => SCounts(l, f.address, kind, nr, pf);
        case U(code, pf) => UCounts(l, f.address, code, pf, f.info, f.emptied);
      }
    case Disconnected => UnconnectedCounts(l, f.control, f.info);
    case FrmrError => UnconnectedCounts(l, f.control, f.info);
    case Connecting => PassingCounts(l, f.control);
    case Disconnecting => PassingCounts(l, f.control);
  }

  lemma AckedMoves(state: State, q: Sequence, f: Frame)
    requires Sequenced(q) && !Resets(state, f.control) && SequenceAfter(state, q, f).va != q.va
    ensures Acked(SequenceAfter(state, q, f)) > Acked(q)
  {
    match f.control
    case I(ns, nr, pf) => AckKeeps(q, nr);
    case S(kind, nr, pf) => AckKeeps(q, nr);
  }

  lemma SilentDispatchCounts(l: Link, f: Frame)
    requires Inside(l) && Silent(l, Dispatch(l, f))
    ensures Dispatch(l, f).n2 == l.n2 && !Resets(l.state, f.control)
  {
    DispatchBookkeeping(l, f);
    DispatchSequence(l, f);
    DispatchCounts(l, f);
    if Dispatch(l, f).q.va != l.q.va {
      AckedMoves(l.state, l.q, f);
    }
  }

  // ---------------------------------------------------------------------------------------------
  // Only the retry limit reports LINK_FAILURE
  // ---------------------------------------------------------------------------------------------

  predicate NoFailure(events: seq<Event>, events': seq<Event>) {
    events <= events' && forall k :: |events| <= k < |events'| ==> events'[k] != LinkFailure
  }

  lemma FailsNotTwice(a: seq<Event>, b: seq<Event>, c: seq<Event>)
    requires NoFailure(a, b) && NoFailure(b, c)
    ensures NoFailure(a, c)
  {}

  lemma NrFailsNot(l: Link, kind: Supervisory, nr: Mod8)
    ensures NoFailure(l.log.events, ProcessNr(l, nr).log.events)
    ensures NoFailure(l.log.events, AfterNr(l, kind, nr).log.events)
  {}

  lemma RejectFailsNot(l: Link, c: Control)
    ensures NoFailure(l.log.events, RejectNr(l, c).log.events)
  {}

  lemma TakingFailsNot(l: Link, ns: Mod8, pf: bool, info: Payload)
    ensures ByNs(l, ns, pf, info).log.events == l.log.events
  {}

  lemma IFailsNot(l: Link, ns: Mod8, nr: Mod8, pf: bool, info: Payload)
    ensures NoFailure(l.log.events, HandleI(l, ns, nr, pf, info).log.events)
  {
    NrFailsNot(l, RR, nr);
    TakingFailsNot(ProcessNr(l, nr), ns, pf, info);
    RejectFailsNot(l, I(ns, nr, pf));
  }

  lemma BeforeNrFailsNot(l: Link, address: Octet, kind: Supervisory, pf: bool)
    ensures NoFailure(l.log.events, BeforeNr(l, address, kind, pf).log.events)
  {}

  lemma SFailsNot(l: Link, address: Octet, kind: Supervisory, nr: Mod8, pf: bool)
    ensures NoFailure(l.log.events, HandleS(l, address, kind, nr, pf).log.events)
  {
    BeforeNrFailsNot(l, address, kind, pf);
    NrFailsNot(BeforeNr(l, address, kind, pf), kind, nr);
    RejectFailsNot(BeforeNr(l, address, kind, pf), S(kind, nr, pf));
    FailsNotTwice(l.log.events, BeforeNr(l, address, kind, pf).log.events,
                  HandleS(l, address, kind, nr, pf).log.events);
  }

  lemma UFailsNot(l: Link, address: Octet, code: Octet, pf: bool, info: Payload, emptied: bool)
    ensures NoFailure(l.log.events, HandleU(l, address, code, pf, info, emptied).log.events)
  {}

  lemma UnconnectedFailsNot(l: Link, c: Control, info: Payload)
    ensures NoFailure(l.log.events, InDisconnected(l, c, info).log.events)
  {}

  lemma FrmrErrorFailsNot(l: Link, c: Control)
    ensures NoFailure(l.log.events, InFrmrError(l, c).log.events)
  {}

  lemma ConnectingFailsNot(l: Link, c: Control)
    ensures NoFailure(l.log.events, InConnecting(l, c).log.events)
  {}

  lemma DisconnectingFailsNot(l: Link, c: Control)
    ensures NoFailure(l.log.events, InDisconnecting(l, c).log.events)
  {}

  lemma DispatchFailsNot(l: Link, f: Frame)
    ensures NoFailure(l.log.events, Dispatch(l, f).log.events)
  {
    match l.state
    case Connected =>
      match f.control {
        case I(ns, nr, pf) => IFailsNot(l, ns, nr, pf, f.info);
        case S(kind, nr, pf) => SFailsNot(l, f.address, kind, nr, pf);
        case U(code, pf) => UFailsNot(l, f.address, code, pf, f.info, f.emptied);
      }
    case Disconnected => UnconnectedFailsNot(l, f.control, f.info);
    case FrmrError => FrmrErrorFailsNot(l, f.control);
    case Connecting => ConnectingFailsNot(l, f.control);
    case Disconnecting => DisconnectingFailsNot(l, f.control);
  }

  // ---------------------------------------------------------------------------------------------
  // Runs
  // ---------------------------------------------------------------------------------------------

  /** How many LINK_FAILURE events a station has reported. */
  function Failures(events: seq<Event>): nat {
    if events == [] then 0
    else Failures(events[..|events| - 1]) + (if events[|events| - 1] == LinkFailure then 1 else 0)
  }

  lemma FailuresOfOneMore(events: seq<Event>, e: Event)
    ensures Failures(events + [e]) == Failures(events) + (if e == LinkFailure then 1 else 0)
  {
    assert (events + [e])[..|events|] == events;
  }

  lemma {:induction false} FailuresOfNone(events: seq<Event>, more: seq<Event>)
    requires LinkFailure !in more
    ensures Failures(events + more) == Failures(events)
  {
    if more == [] {
      assert events + more == events;
    } else {
      FailuresOfNone(events, more[..|more| - 1]);
      FailuresOfOneMore(events + more[..|more| - 1], more[|more| - 1]);
      assert events + more == events + more[..|more| - 1] + [more[|more| - 1]];
    }
  }

  lemma NoFailureCounts(events: seq<Event>, events': seq<Event>)
    requires NoFailure(events, events')
    ensures Failures(events') == Failures(events)
  {
    FailuresOfNone(events, events'[|events|..]);
    assert events' == events + events'[|events|..];
  }

  lemma {:induction false} SilentFramesCount(l: Link, fs: seq<Frame>)
    requires Inside(l) && Silent(l, DispatchAll(l, fs))
    ensures DispatchAll(l, fs).n2 == l.n2
    ensures Failures(DispatchAll(l, fs).log.events) == Failures(l.log.events)
  {
    if fs != [] {
      var rest, f := fs[..|fs| - 1], fs[|fs| - 1];
      ReceiptsAdvance(l, rest);
      DispatchAllKeepsInside(l, rest);
      LastFrameIsSilent(l, DispatchAll(l, rest), f);
      SilentFramesCount(l, rest);
      SilentDispatchCounts(DispatchAll(l, rest), f);
      DispatchFailsNot(DispatchAll(l, rest), f);
      NoFailureCounts(DispatchAll(l, rest).log.events, Dispatch(DispatchAll(l, rest), f).log.events);
    }
  }

  lemma LastFrameIsSilent(l: Link, m: Link, f: Frame)
    requires Inside(m) && m.epoch >= l.epoch && (m.epoch == l.epoch ==> Acked(m.q) >= Acked(l.q))
    requires Silent(l, Dispatch(m, f))
    ensures Silent(l, m) && Silent(m, Dispatch(m, f))
  {
    DispatchBookkeeping(m, f);
    DispatchSequence(m, f);
    if !Resets(m.state, f.control) {
      ReceiptAdvances(m.state, m.q, f);
    }
  }

  /** A call other than a T1 expiry leaves the count alone, short of a reset or an acknowledgement. */
  lemma OtherStepsCountNothing(l: Link, c: Call)
    requires Invariant(l) && Allowed(l, c) && Silent(l, Do(l, c)) && !c.T1Expiry?
    ensures Do(l, c).n2 == l.n2 && Failures(Do(l, c).log.events) == Failures(l.log.events)
  {
    match c
    case Receive(frames) => SilentFramesCount(l, frames);
    case Setup(address) => SetupCountsNothing(l, address);
    case Disc => DisconnectCountsNothing(l);
    case Transmit(_) =>
    case _ =>
  }

  lemma SetStateReports(l: Link, state: State, e: Event)
    requires e != LinkFailure
    ensures Failures(SetState(l, state, e).log.events) == Failures(l.log.events)
  {
    FailuresOfOneMore(l.log.events, e);
  }

  lemma SetupCountsNothing(l: Link, address: Octet)
    ensures LinkSetup(l, address).n2 == l.n2
    ensures Failures(LinkSetup(l, address).log.events) == Failures(l.log.events)
  {
    SetStateReports(T1Start(SendU(l.(peer := address), address, U_SABM, true, [])), Connecting, SetupReq);
  }

  lemma DisconnectCountsNothing(l: Link)
    ensures Disconnect(l).n2 == l.n2
    ensures Failures(Disconnect(l).log.events) == Failures(l.log.events)
  {
    SetStateReports(T1Start(SendU(l, l.peer, U_DISC, true, [])), Disconnecting, DiscReq);
  }

  predicate Limited(l: Link) { 1 <= l.cfg.maxRetries <= 254 }

  /** A T1 expiry counts one, unless it is the one beyond the limit: that one ends the link, and reports it
      once unless there was no link. */
  lemma T1Counts(l: Link)
    requires Invariant(l) && Limited(l)
    ensures l.n2 < l.cfg.maxRetries ==>
      T1Expired(l).n2 == l.n2 + 1 && T1Expired(l).epoch == l.epoch && T1Expired(l).log.events == l.log.events
      && T1Expired(l).state == l.state
    ensures l.n2 == l.cfg.maxRetries ==>
      T1Expired(l).state.Disconnected? && T1Expired(l).n2 == 0 && T1Expired(l).epoch == l.epoch + 1
      && T1Expired(l).log.events == l.log.events + (if l.state.Disconnected? then [] else [LinkFailure])
  {}

  /** Without a limit, and with the limit 255 that an octet cannot exceed, retrying never ends. */
  lemma UnlimitedRetriesNeverEnd(l: Link)
    requires l.cfg.maxRetries == 0 || l.cfg.maxRetries >= 255
    ensures !RetriesExhausted(CountRetry(l)) && T1Expired(l).state == l.state && T1Expired(l).epoch == l.epoch
  {}

  /** How many of the calls are T1 expiries. */
  function Expiries(calls: seq<Call>): nat {
    if calls == [] then 0
    else Expiries(calls[..|calls| - 1]) + (if calls[|calls| - 1].T1Expiry? then 1 else 0)
  }

  lemma OneMoreCall(calls: seq<Call>, j: nat, k: nat)
    requires j < k <= |calls|
    ensures Expiries(calls[j..k]) == Expiries(calls[j..k - 1]) + (if calls[k - 1].T1Expiry? then 1 else 0)
  {
    assert calls[j..k][..k - 1 - j] == calls[j..k - 1];
  }

  lemma {:induction false} FramesKeepConfig(l: Link, fs: seq<Frame>)
    ensures DispatchAll(l, fs).cfg == l.cfg
  {
    if fs != [] {
      FramesKeepConfig(l, fs[..|fs| - 1]);
      DispatchBookkeeping(DispatchAll(l, fs[..|fs| - 1]), fs[|fs| - 1]);
    }
  }

  lemma StepKeepsConfig(l: Link, c: Call)
    requires Allowed(l, c)
    ensures Do(l, c).cfg == l.cfg
  {
    if c.Receive? {
      FramesKeepConfig(l, c.frames);
    }
  }

  lemma {:induction false} RunsKeepConfig(ls: seq<Link>, calls: seq<Call>, k: nat)
    requires IsRun(ls, calls) && k < |ls|
    ensures ls[k].cfg == ls[0].cfg
    decreases k
  {
    if k > 0 {
      RunsKeepConfig(ls, calls, k - 1);
      assert StepAt(ls, calls, k - 1);
      StepKeepsConfig(ls[k - 1], calls[k - 1]);
    }
  }

  lemma SilentStepCounts(l: Link, c: Call)
    requires Invariant(l) && Limited(l) && Allowed(l, c) && Silent(l, Do(l, c))
    ensures Do(l, c).n2 == l.n2 + (if c.T1Expiry? then 1 else 0)
    ensures Failures(Do(l, c).log.events) == Failures(l.log.events)
  {
    if c.T1Expiry? {
      T1Counts(l);
    } else {
      OtherStepsCountNothing(l, c);
    }
  }

  /** The last step of a silent stretch is silent, and so is what precedes it. */
  lemma LastStepIsSilent(first: Link, l: Link, c: Call, l': Link)
    requires Invariant(l) && Limited(l) && Step(l, c, l') && Silent(first, l')
    requires first.epoch <= l.epoch && (first.epoch == l.epoch ==> Acked(first.q) <= Acked(l.q))
    ensures Silent(first, l)
    ensures l'.n2 == l.n2 + (if c.T1Expiry? then 1 else 0)
    ensures Failures(l'.log.events) == Failures(l.log.events)
  {
    StepAdvances(l, c);
    SilentStepCounts(l, c);
  }

  lemma BeforeLastStep(ls: seq<Link>, calls: seq<Call>, j: nat, k: nat)
    requires IsRun(ls, calls) && j < k < |ls| && Limited(ls[0])
    ensures Invariant(ls[k - 1]) && Limited(ls[k - 1]) && Step(ls[k - 1], calls[k - 1], ls[k])
    ensures ls[j].epoch <= ls[k - 1].epoch
    ensures ls[j].epoch == ls[k - 1].epoch ==> Acked(ls[j].q) <= Acked(ls[k - 1].q)
  {
    EpochsAdvance(ls, calls, j, k - 1);
    RunsKeepInvariant(ls, calls, k - 1);
    RunsKeepConfig(ls, calls, k - 1);
    assert StepAt(ls, calls, k - 1);
  }

  lemma SilentLastStep(ls: seq<Link>, calls: seq<Call>, j: nat, k: nat)
    requires IsRun(ls, calls) && j < k < |ls| && Limited(ls[0]) && Silent(ls[j], ls[k])
    ensures Silent(ls[j], ls[k - 1])
    ensures ls[k].n2 == ls[k - 1].n2 + (if calls[k - 1].T1Expiry? then 1 else 0)
    ensures Failures(ls[k].log.events) == Failures(ls[k - 1].log.events)
  {
    BeforeLastStep(ls, calls, j, k);
    LastStepIsSilent(ls[j], ls[k - 1], calls[k - 1], ls[k]);
  }

  /** While nothing resets the link and nothing new is acknowledged, n2 counts the T1 expiries. */
  lemma {:induction false} SilentRunsCount(ls: seq<Link>, calls: seq<Call>, j: nat, k: nat)
    requires IsRun(ls, calls) && j <= k < |ls| && Limited(ls[0]) && Silent(ls[j], ls[k])
    ensures ls[k].n2 == ls[j].n2 + Expiries(calls[j..k])
    decreases k
  {
    if j < k {
      SilentLastStep(ls, calls, j, k);
      SilentRunsCount(ls, calls, j, k - 1);
      OneMoreCall(calls, j, k);
    }
  }

  lemma {:induction false} SilentRunsReportNothing(ls: seq<Link>, calls: seq<Call>, j: nat, k: nat)
    requires IsRun(ls, calls) && j <= k < |ls| && Limited(ls[0]) && Silent(ls[j], ls[k])
    ensures Failures(ls[k].log.events) == Failures(ls[j].log.events)
    decreases k
  {
    if j < k {
      SilentLastStep(ls, calls, j, k);
      SilentRunsReportNothing(ls, calls, j, k - 1);
    }
  }

  /** From any state, the T1 expiry that ends a stretch without reset and without new acknowledgement takes
      the link down exactly when it is number maxRetries - n2 + 1; it then reports LINK_FAILURE, once. */
  lemma BoundedRetry(ls: seq<Link>, calls: seq<Call>, j: nat, k: nat)
    requires IsRun(ls, calls) && j < k < |ls| && Limited(ls[0])
    requires calls[k - 1].T1Expiry? && Silent(ls[j], ls[k - 1])
    ensures Expiries(calls[j..k]) <= ls[0].cfg.maxRetries - ls[j].n2 + 1
    ensures Expiries(calls[j..k]) == ls[0].cfg.maxRetries - ls[j].n2 + 1 <==> ls[k].epoch != ls[j].epoch
    ensures ls[k].state == if ls[k].epoch != ls[j].epoch then Disconnected else ls[k - 1].state
    ensures Failures(ls[k].log.events) - Failures(ls[j].log.events)
      == if ls[k].epoch != ls[j].epoch && !ls[k - 1].state.Disconnected? then 1 else 0
  {
    SilentRunsCount(ls, calls, j, k - 1);
    SilentRunsReportNothing(ls, calls, j, k - 1);
    RunsKeepInvariant(ls, calls, k - 1);
    RunsKeepConfig(ls, calls, k - 1);
    assert StepAt(ls, calls, k - 1);
    LastExpiry(ls[k - 1]);
    OneMoreCall(calls, j, k);
  }

  lemma LastExpiry(l: Link)
    requires Invariant(l) && Limited(l)
    ensures l.n2 == l.cfg.maxRetries <==> T1Expired(l).epoch != l.epoch
    ensures l.n2 <= l.cfg.maxRetries
    ensures T1Expired(l).state == if l.n2 == l.cfg.maxRetries then Disconnected else l.state
    ensures Failures(T1Expired(l).log.events) - Failures(l.log.events)
      == if l.n2 == l.cfg.maxRetries && !l.state.Disconnected? then 1 else 0
  {
    T1Counts(l);
    FailuresOfOneMore(l.log.events, LinkFailure);
    assert l.log.events + [] == l.log.events;
  }
}

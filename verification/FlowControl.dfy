/** Flow control: when transmit_i is refused because the peer is busy, and what the peer of a busy station hears.
  */
module FlowControl {
  import opened Crc
  import opened Frame
  import opened Link
  import opened Runs

  // ---------------------------------------------------------------------------------------------
  // What the supervisory frames of a run say
  // ---------------------------------------------------------------------------------------------

  datatype Said = Nothing | Said(kind: Supervisory)

  /** What a station has been told since the last reset, and what it ought to have reported in all. */
  datatype Flow = Flow(last: Said, reports: seq<Event>)

  /** An RNR that begins a busy condition and an RR that ends one are to be reported. */
  function Report(last: Said, kind: Supervisory): seq<Event> {
    if kind == RNR && last != Said(RNR) then [PeerBusy]
    else if kind == RR && last == Said(RNR) then [PeerReady]
    else []
  }

  function AfterFrame(w: Flow, state: State, f: Frame): Flow {
    if Resets(state, f.control) then w.(last := Nothing)
    else if !f.control.S? || f.control.kind == Unassigned then w
    else Flow(Said(f.control.kind), w.reports + if state.Connected? then Report(w.last, f.control.kind) else [])
  }

  function AfterFrames(w: Flow, l: Link, fs: seq<Frame>): Flow {
    if fs == [] then w
    else AfterFrame(AfterFrames(w, l, fs[..|fs| - 1]), DispatchAll(l, fs[..|fs| - 1]).state, fs[|fs| - 1])
  }

  function AfterCall(w: Flow, l: Link, c: Call): Flow
    requires Allowed(l, c)
  {
    if c.Receive? then AfterFrames(w, l, c.frames)
    else if Do(l, c).epoch != l.epoch then w.(last := Nothing)
    else w
  }

  /** From the frames received alone: the last RR, RNR or REJ since the reset, and the reports due. */
  function FlowOf(ls: seq<Link>, calls: seq<Call>, k: nat): Flow
    requires IsRun(ls, calls) && k < |ls|
  {
    if k == 0 then Flow(Nothing, [])
    else
      assert StepAt(ls, calls, k - 1);
      AfterCall(FlowOf(ls, calls, k - 1), ls[k - 1], calls[k - 1])
  }

  predicate IsFlowEvent(e: Event) { e.PeerBusy? || e.PeerReady? }

  function FlowEvents(events: seq<Event>): seq<Event> {
    if events == [] then []
    else if IsFlowEvent(events[|events| - 1]) then FlowEvents(events[..|events| - 1]) + [events[|events| - 1]]
    else FlowEvents(events[..|events| - 1])
  }

  lemma OneMoreEvent(events: seq<Event>, e: Event)
    ensures FlowEvents(events + [e]) == FlowEvents(events) + if IsFlowEvent(e) then [e] else []
  {
    assert (events + [e])[..|events|] == events;
  }

  // ---------------------------------------------------------------------------------------------
  // What a station makes of them
  // ---------------------------------------------------------------------------------------------

  /** The busy flag is kept, and of flow control nothing is reported. */
  predicate KeepsFlow(l: Link, l': Link) {
    l'.flags.remoteBusy == l.flags.remoteBusy && FlowEvents(l'.log.events) == FlowEvents(l.log.events)
  }

  /** Nothing but a mode is reported, if anything. */
  lemma SetStateKeepsFlow(l: Link, state: State, e: Event)
    requires !IsFlowEvent(e)
    ensures KeepsFlow(l, SetState(l, state, e))
  {
    OneMoreEvent(l.log.events, e);
  }

  lemma FrmrKeepsFlow(l: Link, c: Control, flags: Octet)
    ensures KeepsFlow(l, SendFrmr(l, c, flags))
  {}

  lemma RejectKeepsFlow(l: Link, c: Control)
    ensures KeepsFlow(l, RejectNr(l, c))
  {
    FrmrKeepsFlow(l, c, FRMR_Z);
    SetStateKeepsFlow(SendFrmr(l, c, FRMR_Z), FrmrError, ProtocolError);
  }

  lemma AcksKeepFlow(l: Link, nr: Mod8)
    ensures KeepsFlow(l, FramesAcked(l, nr)) && KeepsFlow(l, ProcessNr(l, nr))
  {
    OneMoreEvent(l.log.events, WindowOpen);
  }

  lemma TakingKeepsFlow(l: Link, ns: Mod8, pf: bool, info: Payload)
    ensures KeepsFlow(l, ByNs(l, ns, pf, info))
  {}

  lemma IKeepsFlow(l: Link, ns: Mod8, nr: Mod8, pf: bool, info: Payload)
    ensures KeepsFlow(l, HandleI(l, ns, nr, pf, info))
  {
    RejectKeepsFlow(l, I(ns, nr, pf));
    AcksKeepFlow(l, nr);
    TakingKeepsFlow(ProcessNr(l, nr), ns, pf, info);
  }

  /** What an RR, RNR or REJ does to the flag and to the events. */
  predicate Heeds(l: Link, l': Link, kind: Supervisory) {
    if kind == Unassigned then KeepsFlow(l, l')
    else
      && l'.flags.remoteBusy == (kind == RNR)
      && FlowEvents(l'.log.events) == FlowEvents(l.log.events) +
         Report(if l.flags.remoteBusy then Said(RNR) else Nothing, kind)
  }

  lemma NoteHeeds(l: Link, kind: Supervisory)
    ensures Heeds(l, NoteBusy(l, kind), kind)
  {
    match kind
    case RR => OneMoreEvent(l.log.events, PeerReady);
    case RNR => OneMoreEvent(l.log.events, PeerBusy);
    case REJ =>
    case Unassigned =>
  }

  lemma AnswerKeepsFlow(l: Link, poll: bool)
    ensures KeepsFlow(l, AnswerPoll(l, poll))
  {}

  lemma BeforeNrHeeds(l: Link, address: Octet, kind: Supervisory, pf: bool)
    ensures Heeds(l, BeforeNr(l, address, kind, pf), kind)
  {
    NoteHeeds(l, kind);
    AnswerKeepsFlow(NoteBusy(l, kind), IsCommand(l, address) && pf);
  }

  lemma AfterNrKeepsFlow(l: Link, kind: Supervisory, nr: Mod8, final: bool)
    ensures KeepsFlow(l, AfterFinal(AfterNr(l, kind, nr), final))
  {
    AcksKeepFlow(l, nr);
  }

  lemma SHeeds(l: Link, address: Octet, kind: Supervisory, nr: Mod8, pf: bool)
    ensures Heeds(l, HandleS(l, address, kind, nr, pf), kind)
  {
    var m := BeforeNr(l, address, kind, pf);
    BeforeNrHeeds(l, address, kind, pf);
    RejectKeepsFlow(m, S(kind, nr, pf));
    AfterNrKeepsFlow(m, kind, nr, !IsCommand(l, address) && pf);
  }

  lemma ResettingKeepsReports(l: Link, pf: bool, state: State, e: Event)
    requires !IsFlowEvent(e)
    ensures FlowEvents(SetState(SendUa(ResetState(l), pf), state, e).log.events) == FlowEvents(l.log.events)
    ensures FlowEvents(SetState(ResetState(l), state, e).log.events) == FlowEvents(l.log.events)
    ensures !SetState(SendUa(ResetState(l), pf), state, e).flags.remoteBusy
    ensures !SetState(ResetState(l), state, e).flags.remoteBusy
  {
    SetStateKeepsFlow(SendUa(ResetState(l), pf), state, e);
    SetStateKeepsFlow(ResetState(l), state, e);
  }

  /** Whatever a U-frame does, it reports nothing of flow control, and if it resets, the flag is cleared. */
  predicate UFlow(l: Link, l': Link, resets: bool) {
    && l'.flags.remoteBusy == (!resets && l.flags.remoteBusy)
    && FlowEvents(l'.log.events) == FlowEvents(l.log.events)
  }

  lemma SendUFlow(l: Link, address: Octet, code: Octet, pf: bool, info: Payload)
    ensures UFlow(l, SendU(l, address, code, pf, info), false) && UFlow(l, OnData(l, info), false)
  {}

  lemma ConnectedUFlow(l: Link, address: Octet, code: Octet, pf: bool, info: Payload, emptied: bool)
    ensures UFlow(l, HandleU(l, address, code, pf, info, emptied), ResetBy(Connected, code, pf))
  {
    if code == U_SABM {
      ResettingKeepsReports(l, pf, Connected, ConnReq);
    } else if code == U_DISC {
      ResettingKeepsReports(l, pf, Disconnected, PeerDisc);
    } else if code == U_DM {
      ResettingKeepsReports(l, pf, Disconnected, PeerReject);
    } else if code == U_FRMR {
      ResettingKeepsReports(l, pf, FrmrError, ProtocolError);
    } else if code == U_UI || code == U_TEST {
      SendUFlow(l, l.cfg.my, U_TEST, pf, info);
    } else if IsUnsupportedMode(code) {
      SendUFlow(l, l.cfg.my, U_DM, pf, []);
    } else {
      FrmrKeepsFlow(l, U(code, pf), FRMR_W);
    }
  }

  lemma AcceptingFlow(l: Link, pf: bool)
    ensures UFlow(l, SetState(SendUa(ResetState(l), pf), Connected, ConnReq), true)
    ensures UFlow(l, SetState(ResetState(T1Stop(l)), Connected, ConnAccepted), true)
  {
    ResettingKeepsReports(l, pf, Connected, ConnReq);
    ResettingKeepsReports(T1Stop(l), pf, Connected, ConnAccepted);
  }

  lemma LeavingFlow(l: Link, e: Event)
    requires !IsFlowEvent(e)
    ensures UFlow(l, SetState(T1Stop(l), Disconnected, e), false)
  {
    SetStateKeepsFlow(T1Stop(l), Disconnected, e);
  }

  lemma DisconnectedFlow(l: Link, c: Control, info: Payload)
    ensures UFlow(l, InDisconnected(l, c, info), Resets(Disconnected, c))
  {
    if c.U? && c.code == U_SABM {
      AcceptingFlow(l, c.pf);
    }
  }

  lemma FrmrErrorFlow(l: Link, c: Control)
    ensures UFlow(l, InFrmrError(l, c), Resets(FrmrError, c))
  {
    if c.U? && c.code == U_SABM {
      AcceptingFlow(l, c.pf);
    }
  }

  lemma ConnectingFlow(l: Link, c: Control)
    ensures UFlow(l, InConnecting(l, c), Resets(Connecting, c))
  {
    if !c.U? {
    } else if c.code == U_SABM || c.code == U_DISC {
    } else if c.code == U_UA {
      AcceptingFlow(l, c.pf);
    } else if c.code == U_DM {
      LeavingFlow(l, PeerReject);
    }
  }

  lemma DisconnectingFlow(l: Link, c: Control)
    ensures UFlow(l, InDisconnecting(l, c), false)
  {
    if !c.U? {
    } else if c.code == U_SABM || c.code == U_SABME || c.code == U_DISC {
    } else if c.code == U_UA {
      LeavingFlow(l, DiscDone);
    } else if c.code == U_DM {
      LeavingFlow(l, PeerReject);
    }
  }

  lemma OtherStateFlow(l: Link, f: Frame)
    requires !l.state.Connected?
    ensures UFlow(l, Dispatch(l, f), Resets(l.state, f.control))
  {
    match l.state
    case Disconnected => DisconnectedFlow(l, f.control, f.info);
    case FrmrError => FrmrErrorFlow(l, f.control);
    case Connecting => ConnectingFlow(l, f.control);
    case Disconnecting => DisconnectingFlow(l, f.control);
  }

  // ---------------------------------------------------------------------------------------------
  // Over runs
  // ---------------------------------------------------------------------------------------------

  /** A connected station refuses just if the last word was RNR, and every station has reported what was due. */
  predicate InFlow(l: Link, w: Flow) {
    && (l.state.Connected? ==> (l.flags.remoteBusy <==> w.last == Said(RNR)))
    && FlowEvents(l.log.events) == w.reports
  }

  lemma ConnectedFrameFlows(l: Link, f: Frame, w: Flow)
    requires InFlow(l, w) && l.state.Connected?
    ensures InFlow(Dispatch(l, f), AfterFrame(w, l.state, f))
  {
    match f.control
    case I(ns, nr, pf) => IKeepsFlow(l, ns, nr, pf, f.info);
    case S(kind, nr, pf) => SHeeds(l, f.address, kind, nr, pf);
    case U(code, pf) => ConnectedUFlow(l, f.address, code, pf, f.info, f.emptied);
  }

  lemma FrameFlows(l: Link, f: Frame, w: Flow)
    requires InFlow(l, w)
    ensures InFlow(Dispatch(l, f), AfterFrame(w, l.state, f))
  {
    if l.state.Connected? {
      ConnectedFrameFlows(l, f, w);
    } else {
      OtherStateFlow(l, f);
      if Dispatch(l, f).state.Connected? {
        EnteringResets(l, f);
      }
    }
  }

  /** Into CONNECTED there is no way but by a reset. */
  lemma EnteringResets(l: Link, f: Frame)
    requires !l.state.Connected? && Dispatch(l, f).state.Connected?
    ensures Resets(l.state, f.control)
  {
    match l.state
    case Disconnected =>
    case FrmrError =>
    case Connecting =>
    case Disconnecting =>
  }

  lemma {:induction false} FramesFlow(l: Link, fs: seq<Frame>, w: Flow)
    requires InFlow(l, w)
    ensures InFlow(DispatchAll(l, fs), AfterFrames(w, l, fs))
  {
    if fs != [] {
      FramesFlow(l, fs[..|fs| - 1], w);
      FrameFlows(DispatchAll(l, fs[..|fs| - 1]), fs[|fs| - 1], AfterFrames(w, l, fs[..|fs| - 1]));
    }
  }

  /** Of a user's or a timer's call: the flag is cleared by a reset and otherwise kept, and nothing is reported. */
  predicate OwnFlow(l: Link, l': Link) {
    && l'.flags.remoteBusy == (l'.epoch == l.epoch && l.flags.remoteBusy)
    && FlowEvents(l'.log.events) == FlowEvents(l.log.events)
    && (l'.state.Connected? ==> l.state.Connected? && l'.epoch == l.epoch)
  }

  lemma T1Flow(l: Link)
    ensures OwnFlow(l, T1Expired(l))
  {
    SetStateKeepsFlow(CountRetry(l), Disconnected, LinkFailure);
  }

  lemma SetupFlow(l: Link, address: Octet)
    ensures OwnFlow(l, LinkSetup(l, address))
  {
    SetStateKeepsFlow(T1Start(SendU(l.(peer := address), address, U_SABM, true, [])), Connecting, SetupReq);
  }

  lemma DisconnectFlow(l: Link)
    ensures OwnFlow(l, Disconnect(l))
  {
    SetStateKeepsFlow(T1Start(SendU(l, l.peer, U_DISC, true, [])), Disconnecting, DiscReq);
  }

  lemma LinkResetFlow(l: Link)
    ensures OwnFlow(l, LinkReset(l))
  {
    SetStateKeepsFlow(T1Start(SendU(ResetState(l), l.peer, U_SABM, true, [])), Connecting, ResetDone);
  }

  lemma TransmitFlow(l: Link, p: Payload)
    requires RingSized(l)
    ensures OwnFlow(l, TransmitI(l, p))
  {}

  lemma OwnCallFlows(l: Link, c: Call)
    requires Allowed(l, c) && !c.Receive?
    ensures OwnFlow(l, Do(l, c))
  {
    match c
    case Transmit(p) => TransmitFlow(l, p);
    case T1Expiry => T1Flow(l);
    case Setup(address) => SetupFlow(l, address);
    case Disc => DisconnectFlow(l);
    case Reset => LinkResetFlow(l);
    case _ =>
  }

  lemma CallFlows(l: Link, c: Call, w: Flow)
    requires InFlow(l, w) && Allowed(l, c)
    ensures InFlow(Do(l, c), AfterCall(w, l, c))
  {
    if c.Receive? {
      FramesFlow(l, c.frames, w);
    } else {
      OwnCallFlows(l, c);
    }
  }

  lemma {:induction false} RunsFlow(ls: seq<Link>, calls: seq<Call>, k: nat)
    requires IsRun(ls, calls) && k < |ls|
    ensures InFlow(ls[k], FlowOf(ls, calls, k))
    decreases k
  {
    if k == 0 {
    } else {
      RunsFlow(ls, calls, k - 1);
      assert StepAt(ls, calls, k - 1);
      CallFlows(ls[k - 1], calls[k - 1], FlowOf(ls, calls, k - 1));
    }
  }

  /** In every connected state of every run transmit_i is refused for a busy peer if and only if the last RR, RNR or REJ
      received since the reset was an RNR. */
  lemma PeerIsBusyExactly(ls: seq<Link>, calls: seq<Call>, k: nat, p: Payload)
    requires IsRun(ls, calls) && k < |ls| && ls[k].state.Connected?
    ensures TransmitIError(ls[k], p) == PeerIsBusy <==> FlowOf(ls, calls, k).last == Said(RNR)
  {
    RunsFlow(ls, calls, k);
  }

  /** PEER_BUSY and PEER_READY are reported just when an RNR begins such a condition and an RR ends it. */
  lemma FlowIsReportedExactly(ls: seq<Link>, calls: seq<Call>, k: nat)
    requires IsRun(ls, calls) && k < |ls|
    ensures FlowEvents(ls[k].log.events) == FlowOf(ls, calls, k).reports
  {
    RunsFlow(ls, calls, k);
  }

  /** And in every state of every run a payload is accepted if and only if the station is connected, the peer's last
      word is not RNR, the payload fits, and fewer payloads than there are slots are unacknowledged. */
  lemma AcceptedExactly(ls: seq<Link>, calls: seq<Call>, k: nat, p: Payload)
    requires IsRun(ls, calls) && k < |ls|
    ensures TransmitIError(ls[k], p) == Ok <==>
      && ls[k].state.Connected? && FlowOf(ls, calls, k).last != Said(RNR)
      && |p| <= ls[k].cfg.maxInfo && |p| <= ls[k].cfg.slotCapacity
      && |ls[k].q.accepted| - Acked(ls[k].q) < ls[k].cfg.slotCount
  {
    RunsFlow(ls, calls, k);
    RunsKeepInvariant(ls, calls, k);
  }

  /** A refusal tells why: the first of these that holds. */
  lemma RefusalsTellWhy(ls: seq<Link>, calls: seq<Call>, k: nat, p: Payload)
    requires IsRun(ls, calls) && k < |ls|
    ensures var e := TransmitIError(ls[k], p);
      && (e == BadState <==> !ls[k].state.Connected?)
      && (e == NoBuffer ==> ls[k].cfg.slotCount == 0)
      && (e == FrameSize ==> |p| > ls[k].cfg.maxInfo || |p| > ls[k].cfg.slotCapacity)
      && (e == WindowFull ==> 0 < ls[k].cfg.slotCount == |ls[k].q.accepted| - Acked(ls[k].q))
      && e in {Ok, BadState, PeerIsBusy, NoBuffer, FrameSize, WindowFull}
  {
    RunsKeepInvariant(ls, calls, k);
  }

  // ---------------------------------------------------------------------------------------------
  // The station's own busy condition
  // ---------------------------------------------------------------------------------------------

  /** From the calls alone: what the last set_local_busy in CONNECTED asked for, unless the link was reset since. */
  predicate AskedBusy(ls: seq<Link>, calls: seq<Call>, k: nat)
    requires IsRun(ls, calls) && k < |ls|
  {
    if k == 0 then false
    else if calls[k - 1].Busy? && ls[k - 1].state.Connected? then calls[k - 1].busy
    else ls[k].epoch == ls[k - 1].epoch && AskedBusy(ls, calls, k - 1)
  }

  /** A reset clears the flag, and nothing else touches it. */
  predicate KeepsBusy(l: Link, l': Link) {
    l'.epoch >= l.epoch && l'.flags.localBusy == (l'.epoch == l.epoch && l.flags.localBusy)
  }

  lemma IKeepsBusy(l: Link, ns: Mod8, nr: Mod8, pf: bool, info: Payload)
    ensures KeepsBusy(l, HandleI(l, ns, nr, pf, info))
  {}

  lemma SKeepsBusy(l: Link, address: Octet, kind: Supervisory, nr: Mod8, pf: bool)
    ensures KeepsBusy(l, HandleS(l, address, kind, nr, pf))
  {}

  lemma ResettingClearsBusy(l: Link, pf: bool, state: State, e: Event)
    ensures KeepsBusy(l, SetState(SendUa(ResetState(l), pf), state, e))
    ensures KeepsBusy(l, SetState(ResetState(l), state, e))
  {}

  lemma SendUKeepsBusy(l: Link, address: Octet, code: Octet, pf: bool, info: Payload)
    ensures KeepsBusy(l, SendU(l, address, code, pf, info)) && KeepsBusy(l, OnData(l, info))
  {}

  lemma FrmrKeepsBusy(l: Link, c: Control)
    ensures KeepsBusy(l, SendFrmr(l, c, FRMR_W))
  {}

  lemma LeavingKeepsBusy(l: Link, e: Event)
    ensures KeepsBusy(l, SetState(T1Stop(l), Disconnected, e))
  {}

  lemma ConnectedUKeepsBusy(l: Link, address: Octet, code: Octet, pf: bool, info: Payload, emptied: bool)
    ensures KeepsBusy(l, HandleU(l, address, code, pf, info, emptied))
  {
    if code == U_SABM {
      ResettingClearsBusy(l, pf, Connected, ConnReq);
    } else if code == U_DISC {
      ResettingClearsBusy(l, pf, Disconnected, PeerDisc);
    } else if code == U_DM {
      ResettingClearsBusy(l, pf, Disconnected, PeerReject);
    } else if code == U_FRMR {
      ResettingClearsBusy(l, pf, FrmrError, ProtocolError);
    } else if code == U_UI || code == U_TEST {
      SendUKeepsBusy(l, l.cfg.my, U_TEST, pf, info);
    } else if IsUnsupportedMode(code) {
      SendUKeepsBusy(l, l.cfg.my, U_DM, pf, []);
    } else {
      FrmrKeepsBusy(l, U(code, pf));
    }
  }

  lemma DisconnectedKeepsBusy(l: Link, c: Control, info: Payload)
    ensures KeepsBusy(l, InDisconnected(l, c, info)) && KeepsBusy(l, InFrmrError(l, c))
  {
    if c.U? && c.code == U_SABM {
      ResettingClearsBusy(l, c.pf, Connected, ConnReq);
    }
  }

  lemma ConnectingKeepsBusy(l: Link, c: Control)
    ensures KeepsBusy(l, InConnecting(l, c))
  {
    if !c.U? {
    } else if c.code == U_SABM || c.code == U_DISC {
      SendUKeepsBusy(l, l.cfg.my, if c.code == U_SABM then U_UA else U_DM, c.pf, []);
    } else if c.code == U_UA {
      ResettingClearsBusy(T1Stop(l), c.pf, Connected, ConnAccepted);
    } else if c.code == U_DM {
      LeavingKeepsBusy(l, PeerReject);
    }
  }

  lemma DisconnectingKeepsBusy(l: Link, c: Control)
    ensures KeepsBusy(l, InDisconnecting(l, c))
  {
    if !c.U? {
      SendUKeepsBusy(l, l.cfg.my, U_DM, true, []);
    } else if c.code == U_SABM || c.code == U_SABME || c.code == U_DISC {
      SendUKeepsBusy(l, l.cfg.my, if c.code == U_DISC then U_UA else U_DM, c.pf, []);
    } else if c.code == U_UA {
      LeavingKeepsBusy(l, DiscDone);
    } else if c.code == U_DM {
      LeavingKeepsBusy(l, PeerReject);
    }
  }

  lemma FrameKeepsBusy(l: Link, f: Frame)
    ensures KeepsBusy(l, Dispatch(l, f))
  {
    match l.state
    case Connected =>
      match f.control {
        case I(ns, nr, pf) => IKeepsBusy(l, ns, nr, pf, f.info);
        case S(kind, nr, pf) => SKeepsBusy(l, f.address, kind, nr, pf);
        case U(code, pf) => ConnectedUKeepsBusy(l, f.address, code, pf, f.info, f.emptied);
      }
    case Disconnected => DisconnectedKeepsBusy(l, f.control, f.info);
    case FrmrError => DisconnectedKeepsBusy(l, f.control, f.info);
    case Connecting => ConnectingKeepsBusy(l, f.control);
    case Disconnecting => DisconnectingKeepsBusy(l, f.control);
  }

  lemma {:induction false} FramesKeepBusy(l: Link, fs: seq<Frame>)
    ensures KeepsBusy(l, DispatchAll(l, fs))
  {
    if fs != [] {
      FramesKeepBusy(l, fs[..|fs| - 1]);
      FrameKeepsBusy(DispatchAll(l, fs[..|fs| - 1]), fs[|fs| - 1]);
    }
  }

  lemma T1KeepsBusy(l: Link)
    ensures KeepsBusy(l, T1Expired(l))
  {}

  lemma ModeCallsKeepBusy(l: Link, address: Octet)
    ensures KeepsBusy(l, LinkSetup(l, address)) && KeepsBusy(l, Disconnect(l))
    ensures KeepsBusy(l, LinkReset(l)) && KeepsBusy(l, Abort(l))
  {}

  lemma TransmitKeepsBusy(l: Link, p: Payload)
    requires RingSized(l)
    ensures KeepsBusy(l, TransmitI(l, p))
  {}

  lemma OwnCallKeepsBusy(l: Link, c: Call)
    requires Allowed(l, c) && !c.Receive? && !(c.Busy? && l.state.Connected?)
    ensures KeepsBusy(l, Do(l, c))
  {
    match c
    case Transmit(p) => TransmitKeepsBusy(l, p);
    case T1Expiry => T1KeepsBusy(l);
    case Setup(address) => ModeCallsKeepBusy(l, address);
    case Disc => ModeCallsKeepBusy(l, 0);
    case Reset => ModeCallsKeepBusy(l, 0);
    case AbortAll => ModeCallsKeepBusy(l, 0);
    case _ =>
  }

  /** In every state of every run the station is busy if and only if the user asked for it and no reset has come. */
  lemma {:induction false} LocallyBusyExactly(ls: seq<Link>, calls: seq<Call>, k: nat)
    requires IsRun(ls, calls) && k < |ls|
    ensures ls[k].flags.localBusy <==> AskedBusy(ls, calls, k)
    decreases k
  {
    if k > 0 {
      LocallyBusyExactly(ls, calls, k - 1);
      assert StepAt(ls, calls, k - 1);
      if calls[k - 1].Receive? {
        FramesKeepBusy(ls[k - 1], calls[k - 1].frames);
      } else if !(calls[k - 1].Busy? && ls[k - 1].state.Connected?) {
        OwnCallKeepsBusy(ls[k - 1], calls[k - 1]);
      }
    }
  }

  /** The supervisory frame that acknowledges n payloads. */
  function Acknowledgement(l: Link, address: Octet, kind: Supervisory, pf: bool, n: nat): Sent {
    Sent(Frame(address, S(kind, n % MOD8, pf), []), 0, n, |l.q.accepted|)
  }

  lemma TakenIsAnswered(l: Link, pf: bool, info: Payload)
    requires l.q.vr == |l.q.received| % MOD8
    ensures var kind, n := if l.flags.localBusy then RNR else RR, |l.q.received| + 1;
      if pf || (l.flags.localBusy && !l.flags.t2) then
        InSequence(l, pf, info).log.out == l.log.out + [Acknowledgement(l, l.cfg.my, kind, pf, n)]
      else InSequence(l, pf, info).log.out == l.log.out && InSequence(l, pf, info).flags.t2
  {}

  lemma AckedSendsNothing(l: Link, nr: Mod8)
    ensures ProcessNr(l, nr).log.out == l.log.out && ProcessNr(l, nr).flags.t2 == l.flags.t2
  {}

  /** In every run: the next payload is acknowledged by the station that the user declared busy with an RNR, at once
      unless T2 runs, and by another when T2 goes off or the peer polls, with an RR. */
  lemma BusyStationsSaySo(ls: seq<Link>, calls: seq<Call>, k: nat, f: Frame)
    requires IsRun(ls, calls) && k < |ls| && ls[k].state.Connected?
    requires f.control.I? && NrIsValid(ls[k].q, f.control.nr) && f.control.ns == ls[k].q.vr
    ensures var l, n := ls[k], |ls[k].q.received| + 1;
      var busy := AskedBusy(ls, calls, k);
      if f.control.pf || (busy && !l.flags.t2) then
        Dispatch(l, f).log.out ==
          l.log.out + [Acknowledgement(l, l.cfg.my, if busy then RNR else RR, f.control.pf, n)]
      else Dispatch(l, f).log.out == l.log.out && Dispatch(l, f).flags.t2
  {
    LocallyBusyExactly(ls, calls, k);
    RunsKeepInvariant(ls, calls, k);
    AckedSendsNothing(ls[k], f.control.nr);
    TakenIsAnswered(ProcessNr(ls[k], f.control.nr), f.control.pf, f.info);
  }

  /** When T2 goes off likewise. */
  lemma DelayedAcknowledgement(ls: seq<Link>, calls: seq<Call>, k: nat)
    requires IsRun(ls, calls) && k < |ls|
    ensures var l, n := ls[k], |ls[k].q.received|;
      T2Expired(l).log.out == l.log.out +
        [if AskedBusy(ls, calls, k) then Acknowledgement(l, l.cfg.my, RNR, false, n)
         else Acknowledgement(l, l.peer, RR, false, n)]
    ensures !T2Expired(ls[k]).flags.t2
  {
    LocallyBusyExactly(ls, calls, k);
    RunsKeepInvariant(ls, calls, k);
  }
}

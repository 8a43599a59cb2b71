/** What frames and calls do to the state of a station, and what the user is told of it.
  */
module Modes {
  import opened Crc
  import opened Frame
  import opened Link
  import opened Runs

  // ---------------------------------------------------------------------------------------------
  // The state by the events
  // ---------------------------------------------------------------------------------------------

  /** The events that stand for a state; the others are of flow control and the window. */
  predicate IsModeEvent(e: Event) { !(e.PeerBusy? || e.PeerReady? || e.WindowOpen?) }

  /** The state that a user infers from an event. */
  function Inferred(e: Event): State
    requires IsModeEvent(e)
  {
    match e
    case SetupReq => Connecting
    case ResetDone => Connecting
    case ConnAccepted => Connected
    case ConnReq => Connected
    case DiscReq => Disconnecting
    case DiscDone => Disconnected
    case PeerDisc => Disconnected
    case PeerReject => Disconnected
    case LinkFailure => Disconnected
    case ProtocolError => FrmrError
  }

  function ModeEvents(events: seq<Event>): (es: seq<Event>)
    ensures forall e :: e in es ==> IsModeEvent(e)
  {
    if events == [] then []
    else if IsModeEvent(events[|events| - 1]) then ModeEvents(events[..|events| - 1]) + [events[|events| - 1]]
    else ModeEvents(events[..|events| - 1])
  }

  lemma OneMoreEvent(events: seq<Event>, e: Event)
    ensures ModeEvents(events + [e]) == ModeEvents(events) + if IsModeEvent(e) then [e] else []
  {
    assert (events + [e])[..|events|] == events;
  }

  /** From one state to the next: nothing happened, or the one event reported says where to. */
  predicate Reports(l: Link, l': Link, es: seq<Event>) {
    && |es| <= 1 && ModeEvents(l'.log.events) == ModeEvents(l.log.events) + es
    && (es == [] ==> l'.state == l.state)
    && (es != [] ==> IsModeEvent(es[0]) && l'.state == Inferred(es[0]))
  }

  lemma NoneReported(l: Link, l': Link)
    requires ModeEvents(l'.log.events) == ModeEvents(l.log.events) && l'.state == l.state
    ensures Reports(l, l', [])
  {}

  lemma ReportsAfter(l: Link, m: Link, l': Link, es: seq<Event>)
    requires Reports(l, m, []) && Reports(m, l', es)
    ensures Reports(l, l', es)
  {}

  lemma SetStateReports(l: Link, state: State, e: Event)
    requires IsModeEvent(e) && Inferred(e) == state
    ensures Reports(l, SetState(l, state, e), if l.state == state && e != ConnReq then [] else [e])
  {
    OneMoreEvent(l.log.events, e);
  }

  // ---------------------------------------------------------------------------------------------
  // Frames
  // ---------------------------------------------------------------------------------------------

  predicate Bears(c: Control, code: Octet) { c.U? && c.code == code }

  predicate Final(c: Control, code: Octet) { c.U? && c.code == code && c.pf }

  /** What a frame is reported as: what each end of a connection, asked for or not, is called. */
  function FrameReport(l: Link, f: Frame): seq<Event> {
    var c := f.control;
    match l.state
    case Disconnected => if Bears(c, U_SABM) then [ConnReq] else []
    case FrmrError => if Bears(c, U_SABM) then [ConnReq] else []
    case Connecting =>
      if Final(c, U_UA) then [ConnAccepted] else if Final(c, U_DM) then [PeerReject] else []
    case Disconnecting =>
      if Final(c, U_UA) then [DiscDone] else if Final(c, U_DM) then [PeerReject] else []
    case Connected =>
      if !c.U? then (if NrIsValid(l.q, c.nr) then [] else [ProtocolError])
      else if c.code == U_SABM then [ConnReq]
      else if c.code == U_DISC then [PeerDisc]
      else if c.code == U_DM then [PeerReject]
      else if c.code == U_FRMR then [ProtocolError]
      else []
  }

  lemma RejectReports(l: Link, c: Control)
    requires l.state.Connected?
    ensures Reports(l, RejectNr(l, c), [ProtocolError])
  {
    SetStateReports(SendFrmr(l, c, FRMR_Z), FrmrError, ProtocolError);
    NoneReported(l, SendFrmr(l, c, FRMR_Z));
    ReportsAfter(l, SendFrmr(l, c, FRMR_Z), RejectNr(l, c), [ProtocolError]);
  }

  lemma FramesAckedReportNothing(l: Link, nr: Mod8)
    ensures Reports(l, FramesAcked(l, nr), [])
  {
    OneMoreEvent(l.log.events, WindowOpen);
  }

  lemma AcksReportNothing(l: Link, nr: Mod8)
    ensures Reports(l, ProcessNr(l, nr), []) && Reports(l, FramesAcked(l, nr), [])
  {
    FramesAckedReportNothing(l, nr);
  }

  lemma TakingReportsNothing(l: Link, ns: Mod8, pf: bool, info: Payload)
    ensures Reports(l, ByNs(l, ns, pf, info), [])
  {}

  lemma IReports(l: Link, ns: Mod8, nr: Mod8, pf: bool, info: Payload)
    requires l.state.Connected?
    ensures Reports(l, HandleI(l, ns, nr, pf, info), if NrIsValid(l.q, nr) then [] else [ProtocolError])
  {
    if NrIsValid(l.q, nr) {
      AcksReportNothing(l, nr);
      TakingReportsNothing(ProcessNr(l, nr), ns, pf, info);
      ReportsAfter(l, ProcessNr(l, nr), HandleI(l, ns, nr, pf, info), []);
    } else {
      RejectReports(l, I(ns, nr, pf));
    }
  }

  lemma BeforeNrReportsNothing(l: Link, address: Octet, kind: Supervisory, pf: bool)
    ensures Reports(l, BeforeNr(l, address, kind, pf), [])
  {
    OneMoreEvent(l.log.events, PeerBusy);
    OneMoreEvent(l.log.events, PeerReady);
  }

  lemma AfterNrReportsNothing(l: Link, kind: Supervisory, nr: Mod8, final: bool)
    ensures Reports(l, AfterFinal(AfterNr(l, kind, nr), final), [])
  {
    AcksReportNothing(l, nr);
  }

  lemma SReports(l: Link, address: Octet, kind: Supervisory, nr: Mod8, pf: bool)
    requires l.state.Connected?
    ensures Reports(l, HandleS(l, address, kind, nr, pf), if NrIsValid(l.q, nr) then [] else [ProtocolError])
  {
    var m := BeforeNr(l, address, kind, pf);
    BeforeNrReportsNothing(l, address, kind, pf);
    if NrIsValid(l.q, nr) {
      AfterNrReportsNothing(m, kind, nr, !IsCommand(l, address) && pf);
      ReportsAfter(l, m, HandleS(l, address, kind, nr, pf), []);
    } else {
      RejectReports(m, S(kind, nr, pf));
      ReportsAfter(l, m, HandleS(l, address, kind, nr, pf), [ProtocolError]);
    }
  }

  /** A reset, and an answer, and then the new state. */
  lemma ResettingReports(l: Link, pf: bool, state: State, e: Event)
    requires IsModeEvent(e) && Inferred(e) == state && (l.state != state || e == ConnReq)
    ensures Reports(l, SetState(SendUa(ResetState(l), pf), state, e), [e])
    ensures Reports(l, SetState(ResetState(l), state, e), [e])
  {
    SetStateReports(SendUa(ResetState(l), pf), state, e);
    SetStateReports(ResetState(l), state, e);
  }

  lemma SendUReportsNothing(l: Link, address: Octet, code: Octet, pf: bool, info: Payload)
    ensures Reports(l, SendU(l, address, code, pf, info), []) && Reports(l, OnData(l, info), [])
  {}

  lemma FrmrReportsNothing(l: Link, c: Control)
    ensures Reports(l, SendFrmr(l, c, FRMR_W), [])
  {}

  lemma LeavingReports(l: Link, e: Event)
    requires IsModeEvent(e) && Inferred(e) == Disconnected && !l.state.Disconnected?
    ensures Reports(l, SetState(T1Stop(l), Disconnected, e), [e])
  {
    SetStateReports(T1Stop(l), Disconnected, e);
  }

  lemma UReports(l: Link, f: Frame)
    requires l.state.Connected? && f.control.U?
    ensures Reports(l, HandleU(l, f.address, f.control.code, f.control.pf, f.info, f.emptied), FrameReport(l, f))
  {
    var code, pf := f.control.code, f.control.pf;
    if code == U_SABM {
      ResettingReports(l, pf, Connected, ConnReq);
    } else if code == U_DISC {
      ResettingReports(l, pf, Disconnected, PeerDisc);
    } else if code == U_DM {
      ResettingReports(l, pf, Disconnected, PeerReject);
    } else if code == U_FRMR {
      ResettingReports(l, pf, FrmrError, ProtocolError);
    } else if code == U_UI || code == U_TEST {
      SendUReportsNothing(l, l.cfg.my, U_TEST, pf, f.info);
    } else if IsUnsupportedMode(code) {
      SendUReportsNothing(l, l.cfg.my, U_DM, pf, []);
    } else {
      FrmrReportsNothing(l, U(code, pf));
    }
  }

  lemma DisconnectedReports(l: Link, f: Frame)
    requires l.state.Disconnected? || l.state.FrmrError?
    ensures Reports(l, Dispatch(l, f), FrameReport(l, f))
  {
    if Bears(f.control, U_SABM) {
      ResettingReports(l, f.control.pf, Connected, ConnReq);
    }
  }

  lemma ConnectingReports(l: Link, f: Frame)
    requires l.state.Connecting?
    ensures Reports(l, Dispatch(l, f), FrameReport(l, f))
  {
    if Final(f.control, U_UA) {
      ResettingReports(T1Stop(l), true, Connected, ConnAccepted);
    } else if Final(f.control, U_DM) {
      LeavingReports(l, PeerReject);
    } else {
      SendUReportsNothing(l, l.cfg.my, U_DM, f.control.pf, []);
      SendUReportsNothing(l, l.cfg.my, U_UA, f.control.pf, []);
    }
  }

  lemma DisconnectingReports(l: Link, f: Frame)
    requires l.state.Disconnecting?
    ensures Reports(l, Dispatch(l, f), FrameReport(l, f))
  {
    if Final(f.control, U_UA) {
      LeavingReports(l, DiscDone);
    } else if Final(f.control, U_DM) {
      LeavingReports(l, PeerReject);
    } else {
      SendUReportsNothing(l, l.cfg.my, U_DM, f.control.pf, []);
      SendUReportsNothing(l, l.cfg.my, U_UA, f.control.pf, []);
    }
  }

  /** Whatever frame arrives in whatever state: the state changes just with an event that says so, and the frame alone
      says which. */
  lemma FramesReport(l: Link, f: Frame)
    ensures Reports(l, Dispatch(l, f), FrameReport(l, f))
  {
    match l.state
    case Connected =>
      match f.control {
        case I(ns, nr, pf) => IReports(l, ns, nr, pf, f.info);
        case S(kind, nr, pf) => SReports(l, f.address, kind, nr, pf);
        case U(_, _) => UReports(l, f);
      }
    case Disconnected => DisconnectedReports(l, f);
    case FrmrError => DisconnectedReports(l, f);
    case Connecting => ConnectingReports(l, f);
    case Disconnecting => DisconnectingReports(l, f);
  }

  // ---------------------------------------------------------------------------------------------
  // Calls
  // ---------------------------------------------------------------------------------------------

  /** What a call of the user or a timer is reported as. */
  function CallReport(l: Link, c: Call): seq<Event>
    requires !c.Receive?
  {
    match c
    case Setup(_) => if l.state.Disconnected? then [SetupReq] else []
    case Disc => if l.state.Connected? || l.state.FrmrError? then [DiscReq] else []
    case Reset => if l.state.Connecting? then [] else [ResetDone]
    case T1Expiry => if RetriesExhausted(CountRetry(l)) && !l.state.Disconnected? then [LinkFailure] else []
    case _ => []
  }

  lemma SetupReports(l: Link, address: Octet)
    ensures Reports(l, LinkSetup(l, address), CallReport(l, Setup(address)))
  {
    var m := T1Start(SendU(l.(peer := address), address, U_SABM, true, []));
    SetStateReports(m, Connecting, SetupReq);
    NoneReported(l, m);
    ReportsAfter(l, m, SetState(m, Connecting, SetupReq), if l.state.Connecting? then [] else [SetupReq]);
  }

  lemma DisconnectReports(l: Link)
    ensures Reports(l, Disconnect(l), CallReport(l, Disc))
  {
    SetStateReports(T1Start(SendU(l, l.peer, U_DISC, true, [])), Disconnecting, DiscReq);
  }

  lemma LinkResetReports(l: Link)
    ensures Reports(l, LinkReset(l), CallReport(l, Reset))
  {
    SetStateReports(T1Start(SendU(ResetState(l), l.peer, U_SABM, true, [])), Connecting, ResetDone);
  }

  lemma T1Reports(l: Link)
    ensures Reports(l, T1Expired(l), CallReport(l, T1Expiry))
  {
    SetStateReports(CountRetry(l), Disconnected, LinkFailure);
  }

  lemma TransmissionReportsNothing(l: Link, p: Payload)
    requires RingSized(l)
    ensures Reports(l, TransmitI(l, p), [])
  {}

  /** Of calls the same; but an abort leads to DISCONNECTED and is not reported. */
  lemma CallsReport(l: Link, c: Call)
    requires Allowed(l, c) && !c.Receive?
    ensures c.AbortAll? ==> Do(l, c).state.Disconnected? && Do(l, c).log.events == l.log.events
    ensures !c.AbortAll? ==> Reports(l, Do(l, c), CallReport(l, c))
  {
    match c
    case Transmit(p) => TransmissionReportsNothing(l, p);
    case Setup(address) => SetupReports(l, address);
    case Disc => DisconnectReports(l);
    case Reset => LinkResetReports(l);
    case T1Expiry => T1Reports(l);
    case _ =>
  }

  // ---------------------------------------------------------------------------------------------
  // Over runs
  // ---------------------------------------------------------------------------------------------

  /** The state that a user infers who starts from this one. */
  function Follow(state: State, es: seq<Event>): State
    requires forall e :: e in es ==> IsModeEvent(e)
  {
    if es == [] then state else Inferred(es[|es| - 1])
  }

  lemma FollowOn(state: State, es: seq<Event>, more: seq<Event>)
    requires (forall e :: e in es ==> IsModeEvent(e)) && (forall e :: e in more ==> IsModeEvent(e))
    ensures forall e :: e in es + more ==> IsModeEvent(e)
    ensures Follow(state, es + more) == Follow(Follow(state, es), more)
  {
    if more == [] {
      assert es + more == es;
    }
  }

  /** From one state to another some events were reported, and the last of them says where to. */
  ghost predicate Traces(l: Link, l': Link, es: seq<Event>) {
    && (forall e :: e in es ==> IsModeEvent(e))
    && ModeEvents(l'.log.events) == ModeEvents(l.log.events) + es && l'.state == Follow(l.state, es)
  }

  lemma OneMoreTraces(l: Link, m: Link, l': Link, es: seq<Event>, more: seq<Event>)
    requires Traces(l, m, es) && Reports(m, l', more)
    ensures Traces(l, l', es + more)
  {
    FollowOn(l.state, es, more);
    assert ModeEvents(l.log.events) + es + more == ModeEvents(l.log.events) + (es + more);
  }

  lemma {:induction false} FramesTrace(l: Link, fs: seq<Frame>) returns (es: seq<Event>)
    ensures Traces(l, DispatchAll(l, fs), es)
  {
    if fs == [] {
      es := [];
    } else {
      var m, f := DispatchAll(l, fs[..|fs| - 1]), fs[|fs| - 1];
      var some := FramesTrace(l, fs[..|fs| - 1]);
      FramesReport(m, f);
      OneMoreTraces(l, m, Dispatch(m, f), some, FrameReport(m, f));
      es := some + FrameReport(m, f);
    }
  }

  /** The events reported by a call. */
  function News(l: Link, l': Link): (es: seq<Event>)
    ensures forall e :: e in es ==> IsModeEvent(e)
  {
    var before, after := ModeEvents(l.log.events), ModeEvents(l'.log.events);
    if before <= after then after[|before|..] else []
  }

  lemma TracesNews(l: Link, l': Link, es: seq<Event>)
    requires Traces(l, l', es)
    ensures News(l, l') == es
  {}

  /** What a user knows who sees the events and his own aborts. */
  function Known(ls: seq<Link>, calls: seq<Call>, k: nat): State
    requires IsRun(ls, calls) && k < |ls|
  {
    if k == 0 || calls[k - 1].AbortAll? then Disconnected
    else Follow(Known(ls, calls, k - 1), News(ls[k - 1], ls[k]))
  }

  lemma CallTraces(l: Link, c: Call, l': Link)
    requires Step(l, c, l')
    ensures l'.state == if c.AbortAll? then Disconnected else Follow(l.state, News(l, l'))
  {
    if c.Receive? {
      var es := FramesTrace(l, c.frames);
      TracesNews(l, l', es);
    } else {
      CallsReport(l, c);
      if !c.AbortAll? {
        TracesNews(l, l', CallReport(l, c));
      }
    }
  }

  /** In every run the events tell the state. */
  lemma {:induction false} EventsTellState(ls: seq<Link>, calls: seq<Call>, k: nat)
    requires IsRun(ls, calls) && k < |ls|
    ensures ls[k].state == Known(ls, calls, k)
    decreases k
  {
    if k > 0 {
      EventsTellState(ls, calls, k - 1);
      assert StepAt(ls, calls, k - 1);
      CallTraces(ls[k - 1], calls[k - 1], ls[k]);
    }
  }
}

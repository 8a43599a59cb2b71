/** What a station is bound to say, and what it must not: answers to its peer, and WINDOW_OPEN to its user.
  */
module Answers {
  import opened Crc
  import opened Frame
  import opened Link
  import opened Runs

  // ---------------------------------------------------------------------------------------------
  // Polls
  // ---------------------------------------------------------------------------------------------

  /** One frame was sent, supervisory, with the P/F bit and V(R) as it now is: a REJ under the peer's address, which
      the peer takes for a command, or else a response that is no REJ. */
  predicate AnsweredPoll(l: Link, l': Link, byRej: bool) {
    && |l'.log.out| == |l.log.out| + 1 && l.log.out <= l'.log.out
    && var s := l'.log.out[|l.log.out|];
       && s.Sent? && s.frame.control.S? && s.frame.control.pf && s.frame.control.nr == l'.q.vr
       && s.frame.address == (if byRej then l.peer else l.cfg.my)
       && (s.frame.control.kind == REJ <==> byRej)
  }

  /** The frame begins a REJ exception. */
  predicate BeginsException(l: Link, f: Frame) { f.control.I? && f.control.ns != l.q.vr && !l.flags.rej }

  lemma TakenPollIsAnswered(l: Link, ns: Mod8, info: Payload)
    ensures AnsweredPoll(l, ByNs(l, ns, true, info), ns != l.q.vr && !l.flags.rej)
  {}

  lemma NrSendsNothing(l: Link, kind: Supervisory, nr: Mod8, final: bool)
    ensures ProcessNr(l, nr).log.out == l.log.out == AfterFinal(AfterNr(l, kind, nr), final).log.out
    ensures AfterFinal(AfterNr(l, kind, nr), final).q.vr == l.q.vr
  {}

  lemma IPollIsAnswered(l: Link, ns: Mod8, nr: Mod8, info: Payload)
    requires NrIsValid(l.q, nr)
    ensures AnsweredPoll(l, HandleI(l, ns, nr, true, info), ns != l.q.vr && !l.flags.rej)
  {
    NrSendsNothing(l, RR, nr, false);
    TakenPollIsAnswered(ProcessNr(l, nr), ns, info);
  }

  lemma SPollIsAnswered(l: Link, kind: Supervisory, nr: Mod8)
    requires NrIsValid(l.q, nr)
    ensures AnsweredPoll(l, HandleS(l, l.cfg.my, kind, nr, true), false)
  {
    NrSendsNothing(BeforeNr(l, l.cfg.my, kind, true), kind, nr, false);
  }

  /** In CONNECTED every poll with a valid N(R), by an I-frame or a supervisory command, is answered by exactly one
      supervisory frame with the P/F bit: by a response, if and only if the poll begins no REJ exception. */
  lemma PollsAreAnswered(l: Link, f: Frame)
    requires l.state.Connected? && !f.control.U? && f.control.pf && NrIsValid(l.q, f.control.nr)
    requires f.control.S? ==> IsCommand(l, f.address)
    ensures AnsweredPoll(l, Dispatch(l, f), BeginsException(l, f))
  {
    match f.control
    case I(ns, nr, _) => IPollIsAnswered(l, ns, nr, f.info);
    case S(kind, nr, _) => SPollIsAnswered(l, kind, nr);
  }

  /** What was sent from one state to another bears the P/F bit only if poll does. */
  predicate Unsolicited(out: seq<Sent>, out': seq<Sent>, poll: bool) {
    out <= out' && forall k :: |out| <= k < |out'| ==> out'[k].Sent? && (out'[k].frame.control.pf ==> poll)
  }

  lemma UnsolicitedTwice(a: seq<Sent>, b: seq<Sent>, c: seq<Sent>, poll: bool)
    requires Unsolicited(a, b, poll) && Unsolicited(b, c, poll)
    ensures Unsolicited(a, c, poll)
  {}

  lemma RejectPollsNot(l: Link, c: Control, poll: bool)
    ensures Unsolicited(l.log.out, RejectNr(l, c).log.out, poll)
  {}

  lemma SendSPollsNot(l: Link, address: Octet, kind: Supervisory, pf: bool)
    ensures Unsolicited(l.log.out, SendS(l, address, kind, pf).log.out, pf)
  {}

  lemma AckPollsNot(l: Link, pf: bool)
    ensures Unsolicited(l.log.out, AckTaken(l, pf).log.out, pf)
  {
    SendSPollsNot(l, l.cfg.my, RNR, pf);
    SendSPollsNot(l, l.cfg.my, RR, pf);
  }

  lemma OutOfSequencePollsNot(l: Link, pf: bool)
    ensures Unsolicited(l.log.out, OutOfSequence(l, pf).log.out, pf)
  {
    SendSPollsNot(l, l.cfg.my, RR, pf);
    SendSPollsNot(l.(flags := l.flags.(rej := true)), l.peer, REJ, pf);
  }

  lemma TakingPollsNot(l: Link, ns: Mod8, pf: bool, info: Payload)
    ensures Unsolicited(l.log.out, ByNs(l, ns, pf, info).log.out, pf)
  {
    AckPollsNot(Take(l, info), pf);
    OutOfSequencePollsNot(l, pf);
  }

  lemma IPollsNot(l: Link, ns: Mod8, nr: Mod8, pf: bool, info: Payload)
    ensures Unsolicited(l.log.out, HandleI(l, ns, nr, pf, info).log.out, pf)
  {
    NrSendsNothing(l, RR, nr, false);
    TakingPollsNot(ProcessNr(l, nr), ns, pf, info);
    RejectPollsNot(l, I(ns, nr, pf), pf);
  }

  lemma BeforeNrPollsNot(l: Link, address: Octet, kind: Supervisory, pf: bool)
    ensures Unsolicited(l.log.out, BeforeNr(l, address, kind, pf).log.out, pf)
  {}

  lemma SPollsNot(l: Link, address: Octet, kind: Supervisory, nr: Mod8, pf: bool)
    ensures Unsolicited(l.log.out, HandleS(l, address, kind, nr, pf).log.out, pf)
  {
    BeforeNrPollsNot(l, address, kind, pf);
    NrSendsNothing(BeforeNr(l, address, kind, pf), kind, nr, !IsCommand(l, address) && pf);
    RejectPollsNot(BeforeNr(l, address, kind, pf), S(kind, nr, pf), pf);
    UnsolicitedTwice(l.log.out, BeforeNr(l, address, kind, pf).log.out,
                     RejectNr(BeforeNr(l, address, kind, pf), S(kind, nr, pf)).log.out, pf);
  }

  lemma SendUPollsNot(l: Link, address: Octet, code: Octet, pf: bool, info: Payload)
    ensures Unsolicited(l.log.out, SendU(l, address, code, pf, info).log.out, pf)
    ensures Unsolicited(l.log.out, OnData(l, info).log.out, pf)
  {}

  lemma StateSendsNothing(l: Link, to: State, e: Event)
    ensures SetState(l, to, e).log.out == l.log.out && ResetState(l).log.out == l.log.out
  {}

  lemma AcceptingPollsNot(l: Link, pf: bool, to: State, e: Event)
    ensures Unsolicited(l.log.out, SetState(SendUa(ResetState(l), pf), to, e).log.out, pf)
  {
    StateSendsNothing(l, to, e);
    StateSendsNothing(SendUa(ResetState(l), pf), to, e);
    SendUPollsNot(ResetState(l), l.cfg.my, U_UA, pf, []);
  }

  lemma LeavingPollsNot(l: Link, pf: bool, to: State, e: Event)
    ensures Unsolicited(l.log.out, SetState(ResetState(l), to, e).log.out, pf)
  {
    StateSendsNothing(l, to, e);
    StateSendsNothing(ResetState(l), to, e);
  }

  lemma FrmrPollsNot(l: Link, c: Control, flags: Octet, poll: bool)
    ensures Unsolicited(l.log.out, SendFrmr(l, c, flags).log.out, poll)
  {}

  lemma UPollsNot(l: Link, address: Octet, code: Octet, pf: bool, info: Payload, emptied: bool)
    ensures Unsolicited(l.log.out, HandleU(l, address, code, pf, info, emptied).log.out, pf)
  {
    if code == U_SABM {
      AcceptingPollsNot(l, pf, Connected, ConnReq);
    } else if code == U_DISC {
      AcceptingPollsNot(l, pf, Disconnected, PeerDisc);
    } else if code == U_DM {
      LeavingPollsNot(l, pf, Disconnected, PeerReject);
    } else if code == U_FRMR {
      LeavingPollsNot(l, pf, FrmrError, ProtocolError);
    } else if code == U_UI || code == U_TEST {
      SendUPollsNot(l, l.cfg.my, U_TEST, pf, info);
    } else if IsUnsupportedMode(code) {
      SendUPollsNot(l, l.cfg.my, U_DM, pf, []);
    } else {
      FrmrPollsNot(l, U(code, pf), FRMR_W, pf);
    }
  }

  lemma DisconnectedPollsNot(l: Link, c: Control, info: Payload)
    ensures Unsolicited(l.log.out, InDisconnected(l, c, info).log.out, c.pf)
  {
    if !c.U? {
    } else if c.code == U_SABM {
    } else if c.code == U_DISC {
    } else if c.code == U_UI {
    } else if IsUnsupportedMode(c.code) {
    }
  }

  lemma FrmrErrorPollsNot(l: Link, c: Control)
    ensures Unsolicited(l.log.out, InFrmrError(l, c).log.out, c.pf)
  {}

  lemma ConnectingPollsNot(l: Link, c: Control)
    ensures Unsolicited(l.log.out, InConnecting(l, c).log.out, c.pf)
  {}

  lemma DisconnectingPollsNot(l: Link, c: Control)
    ensures Unsolicited(l.log.out, InDisconnecting(l, c).log.out, c.pf)
  {}

  /** Whatever frame arrives in whatever state, nothing that is sent at once bears the P/F bit unless the frame
      did: no final goes out unsolicited. */
  lemma NoUnsolicitedFinal(l: Link, f: Frame)
    ensures Unsolicited(l.log.out, Dispatch(l, f).log.out, f.control.pf)
  {
    match l.state
    case Connected =>
      match f.control {
        case I(ns, nr, pf) => IPollsNot(l, ns, nr, pf, f.info);
        case S(kind, nr, pf) => SPollsNot(l, f.address, kind, nr, pf);
        case U(code, pf) => UPollsNot(l, f.address, code, pf, f.info, f.emptied);
      }
    case Disconnected => DisconnectedPollsNot(l, f.control, f.info);
    case FrmrError => FrmrErrorPollsNot(l, f.control);
    case Connecting => ConnectingPollsNot(l, f.control);
    case Disconnecting => DisconnectingPollsNot(l, f.control);
  }

  // ---------------------------------------------------------------------------------------------
  // Mode commands
  // ---------------------------------------------------------------------------------------------

  /** One unnumbered frame was sent, under the station's own address, with this P/F bit. */
  predicate AnsweredWithU(l: Link, l': Link, code: Octet, pf: bool) {
    && |l'.log.out| == |l.log.out| + 1 && l.log.out <= l'.log.out
    && l'.log.out[|l.log.out|].Sent? && l'.log.out[|l.log.out|].frame == Frame(l.cfg.my, U(code, pf), [])
  }

  lemma OneAnswer(l: Link, code: Octet, pf: bool)
    ensures AnsweredWithU(l, SendU(l, l.cfg.my, code, pf, []), code, pf)
  {}

  lemma AcceptingAnswers(l: Link, pf: bool, to: State, e: Event)
    ensures AnsweredWithU(l, SetState(SendUa(ResetState(l), pf), to, e), U_UA, pf)
  {
    StateSendsNothing(l, to, e);
    StateSendsNothing(SendUa(ResetState(l), pf), to, e);
    OneAnswer(ResetState(l), U_UA, pf);
  }

  /** A SABM is answered in every state, with its own P/F bit; only DISCONNECTING refuses it. */
  lemma SabmIsAnswered(l: Link, address: Octet, pf: bool, info: Payload)
    ensures AnsweredWithU(l, Dispatch(l, Frame(address, U(U_SABM, pf), info)),
                          if l.state.Disconnecting? then U_DM else U_UA, pf)
  {
    match l.state
    case Disconnected => AcceptingAnswers(l, pf, Connected, ConnReq);
    case Connecting => OneAnswer(l, U_UA, pf);
    case Connected => AcceptingAnswers(l, pf, Connected, ConnReq);
    case Disconnecting => OneAnswer(l, U_DM, pf);
    case FrmrError => AcceptingAnswers(l, pf, Connected, ConnReq);
  }

  /** It connects but for DISCONNECTING, and for CONNECTING, which stays. */
  lemma SabmConnects(l: Link, address: Octet, pf: bool, info: Payload)
    ensures Dispatch(l, Frame(address, U(U_SABM, pf), info)).state
      == if l.state.Disconnecting? || l.state.Connecting? then l.state else Connected
  {}

  /** A DISC is answered in every state but FRMR_ERROR, which ignores it. */
  lemma DiscIsAnswered(l: Link, address: Octet, pf: bool, info: Payload)
    ensures if l.state.FrmrError? then Dispatch(l, Frame(address, U(U_DISC, pf), info)) == l
            else AnsweredWithU(l, Dispatch(l, Frame(address, U(U_DISC, pf), info)),
                               if l.state.Connecting? then U_DM else U_UA, pf)
  {
    match l.state
    case Disconnected => OneAnswer(l, U_UA, pf);
    case Connecting => OneAnswer(l, U_DM, pf);
    case Connected => AcceptingAnswers(l, pf, Disconnected, PeerDisc);
    case Disconnecting => OneAnswer(l, U_UA, pf);
    case FrmrError =>
  }

  /** A command for a mode that the library does not have is refused with DM and its own P/F bit, and does nothing else:
      in CONNECTED and in DISCONNECTED any, in DISCONNECTING SABME. */
  lemma OtherModesAreRefused(l: Link, address: Octet, code: Octet, pf: bool, info: Payload)
    requires code in {0x83, 0x6F, 0xCF, 0x4F}
    requires l.state.Connected? || l.state.Disconnected? || (l.state.Disconnecting? && code == 0x6F)
    ensures Dispatch(l, Frame(address, U(code, pf), info)) == SendU(l, l.cfg.my, 0x0F, pf, [])
  {}

  /** The frames that a station which is not connected heeds. */
  predicate Heeded(state: State, c: Control)
    requires !state.Connected?
  {
    match state
    case Disconnected => c.U? && c.code in {U_SABM, U_DISC, U_UI, U_SNRM, U_SABME, U_SNRME, U_SARME}
    case Connecting => c.U? && (c.code in {U_SABM, U_DISC} || (c.pf && c.code in {U_UA, U_DM}))
    case Disconnecting =>
      if c.U? then c.code in {U_SABM, U_SABME, U_DISC} || (c.pf && c.code in {U_UA, U_DM}) else c.pf
    case FrmrError => c.U? && c.code == U_SABM
  }

  lemma SomethingHappens(l: Link, l': Link)
    requires |l'.log.out| > |l.log.out| || |l'.log.delivered| > |l.log.delivered| || l'.state != l.state
    ensures l' != l
  {}

  lemma DisconnectedHeeds(l: Link, c: Control, info: Payload)
    requires l.state.Disconnected?
    ensures InDisconnected(l, c, info) != l <==> Heeded(Disconnected, c)
  {
    if Heeded(Disconnected, c) {
      SomethingHappens(l, InDisconnected(l, c, info));
    }
  }

  lemma ConnectingHeeds(l: Link, c: Control)
    requires l.state.Connecting?
    ensures InConnecting(l, c) != l <==> Heeded(Connecting, c)
  {
    if Heeded(Connecting, c) {
      SomethingHappens(l, InConnecting(l, c));
    }
  }

  lemma DisconnectingHeeds(l: Link, c: Control)
    requires l.state.Disconnecting?
    ensures InDisconnecting(l, c) != l <==> Heeded(Disconnecting, c)
  {
    if Heeded(Disconnecting, c) {
      SomethingHappens(l, InDisconnecting(l, c));
    }
  }

  lemma FrmrErrorHeeds(l: Link, c: Control)
    requires l.state.FrmrError?
    ensures InFrmrError(l, c) != l <==> Heeded(FrmrError, c)
  {
    if Heeded(FrmrError, c) {
      SomethingHappens(l, InFrmrError(l, c));
    }
  }

  /** Out of CONNECTED every other frame is ignored altogether, and none of these is. */
  lemma UnconnectedHeedsExactly(l: Link, f: Frame)
    requires !l.state.Connected?
    ensures Dispatch(l, f) != l <==> Heeded(l.state, f.control)
  {
    match l.state
    case Disconnected => DisconnectedHeeds(l, f.control, f.info);
    case Connecting => ConnectingHeeds(l, f.control);
    case Disconnecting => DisconnectingHeeds(l, f.control);
    case FrmrError => FrmrErrorHeeds(l, f.control);
  }

  /** While it is being disconnected a station answers every poll by an I- or S-frame with DM and F, and drops what is
      none. */
  lemma DisconnectingAnswersPolls(l: Link, f: Frame)
    requires l.state.Disconnecting? && !f.control.U?
    ensures Dispatch(l, f) == if f.control.pf then SendU(l, l.cfg.my, 0x0F, true, []) else l
  {}

  // ---------------------------------------------------------------------------------------------
  // WINDOW_OPEN
  // ---------------------------------------------------------------------------------------------

  /** The window has room for another I-frame: what transmit_i asks last. */
  predicate HasRoom(q: Sequence) { Outstanding(q) < |q.slots| }

  /** Among the new events WINDOW_OPEN occurs once if opens, and else not at all. */
  predicate Reports(events: seq<Event>, events': seq<Event>, opens: bool) {
    && events <= events'
    && multiset(events'[|events|..])[WindowOpen] == (if opens then 1 else 0)
  }

  lemma AckReports(l: Link, kind: Supervisory, nr: Mod8)
    requires Inside(l) && NrIsValid(l.q, nr)
    ensures var report := if !HasRoom(l.q) && HasRoom(l.q.(va := nr)) then [WindowOpen] else [];
      && ProcessNr(l, nr).log.events == l.log.events + report
      && AfterNr(l, kind, nr).log.events == l.log.events + report
  {
    AckKeeps(l.q, nr);
    assert l.log.events + [] == l.log.events;
  }

  lemma TakingReports(l: Link, ns: Mod8, pf: bool, info: Payload)
    ensures ByNs(l, ns, pf, info).log.events == l.log.events
  {}

  lemma BeforeNrReports(l: Link, address: Octet, kind: Supervisory, pf: bool)
    ensures var e := BeforeNr(l, address, kind, pf).log.events;
      e == l.log.events || e == l.log.events + [PeerReady] || e == l.log.events + [PeerBusy]
  {}

  lemma FinalReports(l: Link, final: bool)
    ensures AfterFinal(l, final).log.events == l.log.events
  {}

  lemma IReports(l: Link, ns: Mod8, nr: Mod8, pf: bool, info: Payload)
    requires Inside(l) && NrIsValid(l.q, nr)
    ensures Reports(l.log.events, HandleI(l, ns, nr, pf, info).log.events, !HasRoom(l.q) && HasRoom(l.q.(va := nr)))
  {
    AckReports(l, RR, nr);
    TakingReports(ProcessNr(l, nr), ns, pf, info);
  }

  lemma BusyThenOpen(events: seq<Event>, busy: seq<Event>, report: seq<Event>)
    requires busy == [] || busy == [PeerReady] || busy == [PeerBusy]
    requires report == [] || report == [WindowOpen]
    ensures Reports(events, events + busy + report, report != [])
  {
    assert (events + busy + report)[|events|..] == busy + report;
  }

  lemma NrReports(l: Link, kind: Supervisory, nr: Mod8, final: bool)
    requires Inside(l) && NrIsValid(l.q, nr)
    ensures AfterFinal(AfterNr(l, kind, nr), final).log.events
      == l.log.events + (if !HasRoom(l.q) && HasRoom(l.q.(va := nr)) then [WindowOpen] else [])
  {
    AckReports(l, kind, nr);
    FinalReports(AfterNr(l, kind, nr), final);
  }

  lemma TwoReports(events: seq<Event>, busy: seq<Event>, all: seq<Event>, report: seq<Event>)
    requires busy == events || busy == events + [PeerReady] || busy == events + [PeerBusy]
    requires report == [] || report == [WindowOpen]
    requires all == busy + report
    ensures Reports(events, all, report != [])
  {
    BusyThenOpen(events, busy[|events|..], report);
    assert events + busy[|events|..] == busy;
  }

  lemma SReports(l: Link, address: Octet, kind: Supervisory, nr: Mod8, pf: bool)
    requires Inside(l) && NrIsValid(l.q, nr)
    ensures Reports(l.log.events, HandleS(l, address, kind, nr, pf).log.events,
                    !HasRoom(l.q) && HasRoom(l.q.(va := nr)))
  {
    BeforeNrReports(l, address, kind, pf);
    BeforeNrKeepsInside(l, address, kind, pf);
    NrReports(BeforeNr(l, address, kind, pf), kind, nr, !IsCommand(l, address) && pf);
    TwoReports(l.log.events, BeforeNr(l, address, kind, pf).log.events, HandleS(l, address, kind, nr, pf).log.events,
               if !HasRoom(l.q) && HasRoom(l.q.(va := nr)) then [WindowOpen] else []);
  }

  lemma BeforeNrKeepsInside(l: Link, address: Octet, kind: Supervisory, pf: bool)
    requires Inside(l)
    ensures Inside(BeforeNr(l, address, kind, pf))
  {}

  /** WINDOW_OPEN is reported, and once, exactly when an I- or S-frame, a REJ among them, makes room where transmit_i
      had none. */
  lemma WindowOpensExactly(l: Link, f: Frame)
    requires Inside(l) && l.state.Connected? && !f.control.U? && NrIsValid(l.q, f.control.nr)
    ensures Reports(l.log.events, Dispatch(l, f).log.events, !HasRoom(l.q) && HasRoom(Dispatch(l, f).q))
  {
    DispatchSequence(l, f);
    match f.control
    case I(ns, nr, pf) => IReports(l, ns, nr, pf, f.info);
    case S(kind, nr, pf) => SReports(l, f.address, kind, nr, pf);
  }
}

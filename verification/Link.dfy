/** The protocol machine as functions on the value of a station's context: the specification that the
    methods of Station refine, one function for each C function of src/hdlc_dispatch.c,
    src/hdlc_in.c, src/hdlc_out.c and src/hdlc_station.c that touches the context.
  */
module Link {
  import opened Crc
  import opened Frame

  datatype State = Disconnected | Connecting | Connected | FrmrError | Disconnecting

  datatype Event =
    | SetupReq | ConnAccepted | ConnReq | ResetDone | DiscReq | DiscDone | PeerDisc
    | PeerReject | ProtocolError | LinkFailure | PeerBusy | PeerReady | WindowOpen

  datatype Error = Ok | NoBuffer | BadState | BadMode | BadParam | BadBuf | PeerIsBusy | WindowFull | FrameSize

  /** slotCount is 0 for a station without a transmit window; rxCapacity is the size of the receive buffer. */
  datatype Config = Config(my: Octet, maxInfo: nat, maxRetries: nat, slotCount: nat, slotCapacity: nat, rxCapacity: nat)

  type Payload = seq<Octet>

  /** What was handed to `on_send`: a frame, or the two bare flags of an abort.  Of a frame the history also
      keeps the unbounded numbers behind it: the index of the payload it carries, the count of payloads
      delivered when it was sent, and the count of payloads accepted for sending by then. */
  datatype Sent =
    | Sent(frame: Frame, ns: nat, nr: nat, top: nat)
    | TwoFlags

  /** Sequence numbers and retransmit slots, with the payloads they stand for: those accepted by
      transmit_i and those delivered from I-frames, since the last reset. */
  datatype Sequence = Sequence(
    vs: Mod8,
    vr: Mod8,
    va: Mod8,
    nextSlot: nat,
    slots: seq<Payload>,
    accepted: seq<Payload>,
    received: seq<Payload>)

  datatype Flags = Flags(t1: bool, t2: bool, rej: bool, remoteBusy: bool, localBusy: bool)

  /** The callbacks made so far; told counts the delivered payloads that the last N(R) sent stood for. */
  datatype Log = Log(out: seq<Sent>, told: nat, events: seq<Event>, delivered: seq<Payload>)

  datatype Link = Link(
    cfg: Config,
    state: State,
    peer: Octet,
    q: Sequence,
    n2: nat,
    flags: Flags,
    pending: bool,
    retransmitFrom: Mod8,
    frmrCtrl: Octet,
    frmrFlags: Octet,
    log: Log,
    epoch: nat)

  const FRMR_W: Octet := 0x01
  const FRMR_Z: Octet := 0x08

  function NoPayloads(n: nat): (ps: seq<Payload>)
    ensures |ps| == n && forall i :: 0 <= i < n ==> ps[i] == []
  {
    seq(n, _ => [])
  }

  const QUIET := Flags(false, false, false, false, false)

  /** The context after `atc_hdlc_init`, over slots of arbitrary content. */
  function Initial(cfg: Config, slots: seq<Payload>): Link {
    Link(cfg, Disconnected, 0, Sequence(0, 0, 0, 0, slots, [], []), 0, QUIET, false, 0, 0, 0, Log([], 0, [], []), 0)
  }

  // ---------------------------------------------------------------------------------------------
  // Callbacks, timers and senders
  // ---------------------------------------------------------------------------------------------

  function OnEvent(l: Link, e: Event): Link { l.(log := l.log.(events := l.log.events + [e])) }

  function OnData(l: Link, p: Payload): Link { l.(log := l.log.(delivered := l.log.delivered + [p])) }

  function T1Start(l: Link): Link { l.(flags := l.flags.(t1 := true)) }

  function T1Stop(l: Link): Link { l.(flags := l.flags.(t1 := false)) }

  function T2Start(l: Link): Link { l.(flags := l.flags.(t2 := true)) }

  function T2Stop(l: Link): Link { l.(flags := l.flags.(t2 := false)) }

  function SetState(l: Link, state: State, e: Event): Link {
    if l.state != state || e == ConnReq then OnEvent(l.(state := state), e) else l
  }

  /** An unnumbered frame. */
  function SendU(l: Link, address: Octet, code: Octet, pf: bool, info: Payload): Link {
    l.(log := l.log.(out := l.log.out +
         [Sent(Frame(address, U(code, pf), info), 0, |l.q.received|, |l.q.accepted|)]))
  }

  /** A supervisory frame; it carries V(R). */
  function SendS(l: Link, address: Octet, kind: Supervisory, pf: bool): Link {
    l.(log := l.log.(
         out := l.log.out + [Sent(Frame(address, S(kind, l.q.vr, pf), []), 0, |l.q.received|, |l.q.accepted|)],
         told := |l.q.received|))
  }

  /** The I-frame N(S) = V(S) with payload number index, when top payloads have been accepted. */
  function SendI(l: Link, p: Payload, index: nat, top: nat): Link {
    l.(log := l.log.(
         out := l.log.out + [Sent(Frame(l.peer, I(l.q.vs, l.q.vr, false), p), index, |l.q.received|, top)],
         told := |l.q.received|))
  }

  function SendUa(l: Link, pf: bool): Link { SendU(l, l.cfg.my, U_UA, pf, []) }

  function SendDm(l: Link, pf: bool): Link { SendU(l, l.cfg.my, U_DM, pf, []) }

  function SendRr(l: Link, pf: bool): Link { SendS(l, l.peer, RR, pf) }

  function SendRrResp(l: Link, pf: bool): Link { SendS(l, l.cfg.my, RR, pf) }

  function SendRnr(l: Link, pf: bool): Link { SendS(l, l.cfg.my, RNR, pf) }

  function SendRej(l: Link, pf: bool): Link { SendS(l, l.peer, REJ, pf) }

  function RetransmitFrmr(l: Link): Link {
    SendU(l, l.cfg.my, U_FRMR, false, [l.frmrCtrl, ICtrl(l.q.vs, l.q.vr, false), l.frmrFlags])
  }

  function SendFrmr(l: Link, rejected: Control, flags: Octet): Link {
    T1Start(RetransmitFrmr(T2Stop(l.(frmrCtrl := OctetOf(rejected), frmrFlags := flags))))
  }

  // ---------------------------------------------------------------------------------------------
  // src/hdlc_dispatch.c
  // ---------------------------------------------------------------------------------------------

  function ResetState(l: Link): Link {
    l.(q := Sequence(0, 0, 0, 0, NoPayloads(|l.q.slots|), [], []),
       flags := QUIET, n2 := 0, log := l.log.(told := 0), epoch := l.epoch + 1)
  }

  /** How far a sequence number is ahead of another: their difference modulo 8. */
  function Ahead(n: Mod8, of: Mod8): Mod8 { if of <= n then n - of else n + MOD8 - of }

  lemma AheadByRemainder(n: Mod8, of: Mod8)
    ensures Ahead(n, of) == (n + MOD8 - of) % MOD8
  {}

  /** How many frames are out, by the code's modulo-8 arithmetic. */
  function Outstanding(q: Sequence): Mod8 { Ahead(q.vs, q.va) }

  /** The count of payloads acknowledged since the reset, which V(A) stands for. */
  function Acked(q: Sequence): int { |q.accepted| - Outstanding(q) }

  /** What the handling of one I- or S-frame leaves alone. */
  predicate SameSession(l: Link, l': Link) {
    && l'.cfg == l.cfg && l'.peer == l.peer && l'.epoch == l.epoch
    && l'.flags.localBusy == l.flags.localBusy
    && l.log.out <= l'.log.out && (l'.log.told == l.log.told || l'.log.told == |l.q.received|)
  }

  /** Only V(A), n2, the events and perhaps T1 may differ. */
  predicate OnlyAcked(l: Link, l': Link, nr: Mod8) {
    && l'.q == l.q.(va := nr) && l'.n2 == (if nr == l.q.va then l.n2 else 0)
    && l' == l.(q := l'.q, n2 := l'.n2, flags := l.flags.(t1 := l'.flags.t1), log := l.log.(events := l'.log.events))
  }

  function FramesAcked(l: Link, nr: Mod8): (l': Link)
    ensures OnlyAcked(l, l', nr) && l'.flags == l.flags
  {
    if nr == l.q.va then l
    else if Outstanding(l.q) >= l.cfg.slotCount then OnEvent(l.(q := l.q.(va := nr), n2 := 0), WindowOpen)
    else l.(q := l.q.(va := nr), n2 := 0)
  }

  function ProcessNr(l: Link, nr: Mod8): (l': Link)
    ensures OnlyAcked(l, l', nr)
    ensures l'.flags.t1 == if l.q.vs == nr then false else l.q.va != nr || l.flags.t1
  {
    if l.q.vs == nr then T1Stop(FramesAcked(l, nr))
    else if l.q.va != nr then T1Start(FramesAcked(l, nr))
    else l
  }

  function TriggerRetransmit(l: Link, from: Mod8): Link {
    if l.cfg.slotCount == 0 || l.q.vs == from then l else l.(retransmitFrom := from, pending := true)
  }

  predicate NrIsValid(q: Sequence, nr: Mod8) { Ahead(nr, q.va) <= Outstanding(q) }

  function RejectNr(l: Link, c: Control): (l': Link)
    ensures SameSession(l, l') && l'.q == l.q && l'.state == FrmrError && l'.n2 == l.n2
    ensures l'.pending == l.pending && l'.retransmitFrom == l.retransmitFrom
  {
    SetState(SendFrmr(l, c, FRMR_Z), FrmrError, ProtocolError)
  }

  /** V(R) moves on, the REJ exception ends, and the payload is delivered. */
  function Take(l: Link, info: Payload): Link {
    OnData(l.(q := l.q.(vr := (l.q.vr + 1) % MOD8, received := l.q.received + [info]),
              flags := l.flags.(rej := false)), info)
  }

  function AckTaken(l: Link, pf: bool): (l': Link)
    ensures SameSession(l, l') && l'.q == l.q && l'.state == l.state && l'.n2 == l.n2 && l'.pending == l.pending
    ensures l'.flags.t1 == l.flags.t1 && (l'.flags.t2 || l'.log.told == |l.q.received|)
    ensures l'.retransmitFrom == l.retransmitFrom
  {
    if pf then T2Stop(if l.flags.localBusy then SendRnr(l, true) else SendRrResp(l, true))
    else if l.flags.t2 then l
    else if l.flags.localBusy then SendRnr(l, false)
    else T2Start(l)
  }

  function InSequence(l: Link, pf: bool, info: Payload): Link { AckTaken(Take(l, info), pf) }

  function OutOfSequence(l: Link, pf: bool): (l': Link)
    ensures SameSession(l, l') && l'.q == l.q && l'.state == l.state && l'.n2 == l.n2 && l'.pending == l.pending
    ensures l'.flags.t1 == l.flags.t1 && l'.flags.rej
    ensures l'.retransmitFrom == l.retransmitFrom
  {
    if l.flags.rej then (if pf then SendRrResp(l, true) else l)
    else T2Stop(SendRej(l.(flags := l.flags.(rej := true)), pf))
  }

  function ByNs(l: Link, ns: Mod8, pf: bool, info: Payload): Link {
    if ns == l.q.vr then InSequence(l, pf, info) else OutOfSequence(l, pf)
  }

  function HandleI(l: Link, ns: Mod8, nr: Mod8, pf: bool, info: Payload): Link {
    if !NrIsValid(l.q, nr) then RejectNr(l, I(ns, nr, pf))
    else ByNs(ProcessNr(l, nr), ns, pf, info)
  }

  function NoteBusy(l: Link, kind: Supervisory): (l': Link)
    ensures l' == l.(flags := l.flags.(remoteBusy := l'.flags.remoteBusy), log := l.log.(events := l'.log.events))
  {
    match kind
    case RR => if l.flags.remoteBusy then OnEvent(l.(flags := l.flags.(remoteBusy := false)), PeerReady) else l
    case RNR => if l.flags.remoteBusy then l else OnEvent(l.(flags := l.flags.(remoteBusy := true)), PeerBusy)
    case REJ => l.(flags := l.flags.(remoteBusy := false))
    case Unassigned => l
  }

  predicate IsCommand(l: Link, address: Octet) { address == l.cfg.my }

  function AnswerPoll(l: Link, poll: bool): (l': Link)
    ensures l' == l.(flags := l.flags.(t2 := l'.flags.t2), log := l'.log)
    ensures l.log.out <= l'.log.out && (poll ==> l'.log.told == |l.q.received|) && (!poll ==> l' == l)
  {
    if poll then T2Stop(SendRrResp(l, true)) else l
  }

  function RetransmitUnlessAcked(l: Link, from: Mod8): (l': Link)
    ensures l' == l.(pending := l'.pending, retransmitFrom := l'.retransmitFrom)
    ensures l.pending ==> l'.pending
  {
    if l.q.va != l.q.vs then TriggerRetransmit(l, from) else l
  }

  function AfterRej(l: Link, nr: Mod8): Link { RetransmitUnlessAcked(T1Stop(FramesAcked(l, nr)), nr) }

  function AfterNr(l: Link, kind: Supervisory, nr: Mod8): (l': Link)
    ensures OnlyAcked(l.(pending := l'.pending, retransmitFrom := l'.retransmitFrom), l', nr)
  {
    if kind == REJ then AfterRej(l, nr) else ProcessNr(l, nr)
  }

  function AfterFinal(l: Link, final: bool): Link {
    if final then RetransmitUnlessAcked(l, l.q.va) else l
  }

  /** The part of `handle_sframe` before N(R) is looked at. */
  function BeforeNr(l: Link, address: Octet, kind: Supervisory, pf: bool): (l': Link)
    ensures SameSession(l, l') && l'.q == l.q && l'.state == l.state && l'.n2 == l.n2 && l'.pending == l.pending
    ensures l'.flags.t1 == l.flags.t1 && l'.retransmitFrom == l.retransmitFrom
  {
    AnswerPoll(NoteBusy(l, kind), IsCommand(l, address) && pf)
  }

  function HandleS(l: Link, address: Octet, kind: Supervisory, nr: Mod8, pf: bool): Link {
    if !NrIsValid(l.q, nr) then RejectNr(BeforeNr(l, address, kind, pf), S(kind, nr, pf))
    else AfterFinal(AfterNr(BeforeNr(l, address, kind, pf), kind, nr), !IsCommand(l, address) && pf)
  }

  predicate IsUnsupportedMode(code: Octet) {
    code == U_SNRM || code == U_SABME || code == U_SNRME || code == U_SARME
  }

  predicate IsRecognised(code: Octet) {
    || code == U_SABM || code == U_DISC || code == U_DM || code == U_FRMR || code == U_UI || code == U_TEST
    || IsUnsupportedMode(code)
  }

  /** A TEST response is handed to the user if it has an info field, even one of which nothing is left. */
  function HandleU(l: Link, address: Octet, code: Octet, pf: bool, info: Payload, emptied: bool): Link {
    if code == U_SABM then SetState(SendUa(ResetState(l), pf), Connected, ConnReq)
    else if code == U_DISC then SetState(SendUa(ResetState(l), pf), Disconnected, PeerDisc)
    else if code == U_DM then SetState(ResetState(l), Disconnected, PeerReject)
    else if code == U_FRMR then SetState(ResetState(l), FrmrError, ProtocolError)
    else if code == U_UI then OnData(l, info)
    else if code == U_TEST then
      if IsCommand(l, address) then SendU(l, l.cfg.my, U_TEST, pf, info)
      else if info != [] || emptied then OnData(l, info) else l
    else if IsUnsupportedMode(code) then SendDm(l, pf)
    else SendFrmr(l, U(code, pf), FRMR_W)
  }

  function InConnected(l: Link, address: Octet, c: Control, info: Payload, emptied: bool): Link {
    match c
    case I(ns, nr, pf) => HandleI(l, ns, nr, pf, info)
    case S(kind, nr, pf) => HandleS(l, address, kind, nr, pf)
    case U(code, pf) => HandleU(l, address, code, pf, info, emptied)
  }

  function InDisconnected(l: Link, c: Control, info: Payload): Link {
    if !c.U? then l
    else if c.code == U_SABM then SetState(SendUa(ResetState(l), c.pf), Connected, ConnReq)
    else if c.code == U_DISC then SendUa(l, c.pf)
    else if c.code == U_UI then OnData(l, info)
    else if IsUnsupportedMode(c.code) then SendDm(l, c.pf)
    else l
  }

  function InConnecting(l: Link, c: Control): Link {
    if !c.U? then l
    else if c.code == U_SABM then SendUa(l, c.pf)
    else if c.code == U_UA then
      if c.pf then SetState(ResetState(T1Stop(l)), Connected, ConnAccepted) else l
    else if c.code == U_DM then
      if c.pf then SetState(T1Stop(l), Disconnected, PeerReject) else l
    else if c.code == U_DISC then SendDm(l, c.pf)
    else l
  }

  function InDisconnecting(l: Link, c: Control): Link {
    if !c.U? then (if c.pf then SendDm(l, true) else l)
    else if c.code == U_SABM || c.code == U_SABME then SendDm(l, c.pf)
    else if c.code == U_DISC then SendUa(l, c.pf)
    else if c.code == U_UA then
      if c.pf then SetState(T1Stop(l), Disconnected, DiscDone) else l
    else if c.code == U_DM then
      if c.pf then SetState(T1Stop(l), Disconnected, PeerReject) else l
    else l
  }

  function InFrmrError(l: Link, c: Control): Link {
    if c.U? && c.code == U_SABM then SetState(SendUa(ResetState(l), c.pf), Connected, ConnReq) else l
  }

  function Dispatch(l: Link, f: Frame): Link {
    match l.state
    case Disconnected => InDisconnected(l, f.control, f.info)
    case Connecting => InConnecting(l, f.control)
    case Connected => InConnected(l, f.address, f.control, f.info, f.emptied)
    case Disconnecting => InDisconnecting(l, f.control)
    case FrmrError => InFrmrError(l, f.control)
  }

  function DispatchAll(l: Link, fs: seq<Frame>): Link {
    if fs == [] then l else Dispatch(DispatchAll(l, fs[..|fs| - 1]), fs[|fs| - 1])
  }

  // ---------------------------------------------------------------------------------------------
  // src/hdlc_in.c: the deferred replay
  // ---------------------------------------------------------------------------------------------

  /** How many frames a replay sends. */
  function Span(l: Link): Mod8 { Ahead(l.q.vs, l.retransmitFrom) }

  /** The remainder of C, which has the sign of the dividend. */
  function CRemainder(a: int, b: nat): int
    requires b > 0
  {
    if a >= 0 then a % b else -((-a) % b)
  }

  function SlotOperand(l: Link): int { l.q.nextSlot + l.cfg.slotCount - Span(l) }

  /** The slot of the first frame, as the code computes it: an octet. */
  function FirstSlot(l: Link): nat
    requires l.cfg.slotCount > 0
  {
    CRemainder(SlotOperand(l), l.cfg.slotCount) % 256
  }

  /** A replay that is due begins within the slot memory. */
  predicate ReplayDefined(l: Link) {
    l.pending ==> l.cfg.slotCount > 0 && |l.q.slots| == l.cfg.slotCount && FirstSlot(l) < l.cfg.slotCount
  }

  function FirstIndex(l: Link): nat { if Span(l) <= |l.q.accepted| then |l.q.accepted| - Span(l) else 0 }

  function ReplayedFrame(l: Link, k: nat): Sent
    requires l.pending && ReplayDefined(l)
  {
    var slot := (FirstSlot(l) + k) % l.cfg.slotCount;
    Sent(Frame(l.peer, I((l.retransmitFrom + k) % MOD8, l.q.vr, false), l.q.slots[slot]),
         FirstIndex(l) + k, |l.q.received|, |l.q.accepted|)
  }

  function Replayed(l: Link): seq<Sent>
    requires l.pending && ReplayDefined(l)
  {
    seq(Span(l), k requires 0 <= k => ReplayedFrame(l, k))
  }

  function RetransmitOutstanding(l: Link): Link
    requires l.pending && ReplayDefined(l)
  {
    T1Start(l.(pending := false,
               log := l.log.(out := l.log.out + Replayed(l),
                             told := if Span(l) > 0 then |l.q.received| else l.log.told)))
  }

  function Flush(l: Link): Link
    requires ReplayDefined(l)
  {
    if l.pending then RetransmitOutstanding(l) else l
  }

  /** A call of `data_in` whose octets complete these frames. */
  function DataIn(l: Link, fs: seq<Frame>): Link
    requires ReplayDefined(DispatchAll(l, fs))
  {
    Flush(DispatchAll(l, fs))
  }

  // ---------------------------------------------------------------------------------------------
  // src/hdlc_out.c and src/hdlc_station.c: the calls of the user
  // ---------------------------------------------------------------------------------------------

  function TransmitIError(l: Link, p: Payload): Error {
    if l.state != Connected then BadState
    else if l.flags.remoteBusy then PeerIsBusy
    else if l.cfg.slotCount == 0 then NoBuffer
    else if |p| > l.cfg.maxInfo then FrameSize
    else if |p| > l.cfg.slotCapacity then FrameSize
    else if Outstanding(l.q) >= l.cfg.slotCount then WindowFull
    else Ok
  }

  /** The retransmit slots are those of the configuration, and the next one to fill is among them. */
  predicate RingSized(l: Link) {
    |l.q.slots| == l.cfg.slotCount && (l.cfg.slotCount > 0 ==> l.q.nextSlot < l.cfg.slotCount)
  }

  /** The next slot takes the payload, and V(S) moves past it. */
  function Enter(q: Sequence, p: Payload): Sequence
    requires q.nextSlot < |q.slots|
  {
    q.(vs := (q.vs + 1) % MOD8, nextSlot := (q.nextSlot + 1) % |q.slots|, slots := q.slots[q.nextSlot := p],
       accepted := q.accepted + [p])
  }

  function Transmitted(l: Link, p: Payload): Link
    requires l.q.nextSlot < |l.q.slots|
  {
    T2Stop(SendI(l, p, |l.q.accepted|, |l.q.accepted| + 1).(q := Enter(l.q, p)))
  }

  function TransmitI(l: Link, p: Payload): Link
    requires RingSized(l)
  {
    if TransmitIError(l, p) != Ok then l
    else if Outstanding(l.q) == 0 then T1Start(Transmitted(l, p))
    else Transmitted(l, p)
  }

  function TransmitUError(l: Link, p: Payload): Error { if |p| > l.cfg.maxInfo then FrameSize else Ok }

  function TransmitUi(l: Link, address: Octet, p: Payload): Link {
    if TransmitUError(l, p) != Ok then l else SendU(l, address, U_UI, false, p)
  }

  function TransmitTest(l: Link, address: Octet, p: Payload): Link {
    if TransmitUError(l, p) != Ok then l else SendU(l, address, U_TEST, true, p)
  }

  function LinkSetup(l: Link, address: Octet): Link {
    if l.state != Disconnected then l
    else SetState(T1Start(SendU(l.(peer := address), address, U_SABM, true, [])), Connecting, SetupReq)
  }

  function Disconnect(l: Link): Link {
    if l.state != Connected && l.state != FrmrError then l
    else SetState(T1Start(SendU(l, l.peer, U_DISC, true, [])), Disconnecting, DiscReq)
  }

  function LinkReset(l: Link): Link {
    SetState(T1Start(SendU(ResetState(l), l.peer, U_SABM, true, [])), Connecting, ResetDone)
  }

  function SetLocalBusy(l: Link, busy: bool): Link {
    if l.state != Connected || busy == l.flags.localBusy then l
    else if busy then l.(flags := l.flags.(localBusy := true))
    else SendRr(l.(flags := l.flags.(localBusy := false)), false)
  }

  /** T1 has gone off and is counted; n2 is an octet. */
  function CountRetry(l: Link): Link { l.(flags := l.flags.(t1 := false), n2 := (l.n2 + 1) % 256) }

  predicate RetriesExhausted(l: Link) { l.cfg.maxRetries > 0 && l.n2 > l.cfg.maxRetries }

  function Enquire(l: Link): Link { if l.flags.localBusy then SendRnr(l, true) else SendRr(l, true) }

  function Retry(l: Link): (l': Link)
    ensures l' == l.(flags := l.flags.(t1 := l'.flags.t1), log := l.log.(out := l'.log.out, told := l'.log.told))
  {
    match l.state
    case Connecting => T1Start(SendU(l, l.peer, U_SABM, true, []))
    case Disconnecting => T1Start(SendU(l, l.peer, U_DISC, true, []))
    case Connected => if l.q.va != l.q.vs then T1Start(Enquire(l)) else l
    case FrmrError => T1Start(RetransmitFrmr(l))
    case Disconnected => l
  }

  function T1Expired(l: Link): Link {
    if RetriesExhausted(CountRetry(l)) then ResetState(SetState(CountRetry(l), Disconnected, LinkFailure))
    else Retry(CountRetry(l))
  }

  function T2Expired(l: Link): Link {
    if l.flags.localBusy then SendRnr(T2Stop(l), false) else SendRr(T2Stop(l), false)
  }

  function Abort(l: Link): Link {
    ResetState(l.(log := l.log.(out := l.log.out + [TwoFlags]))).(state := Disconnected)
  }
}

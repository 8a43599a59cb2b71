/** What every run of one station keeps, against an arbitrary peer.
  */
module Runs {
  import opened Crc
  import opened Frame
  import opened Link
  import Modular

  // ---------------------------------------------------------------------------------------------
  // Sequence numbers and the ring
  // ---------------------------------------------------------------------------------------------

  predicate Holds(slots: seq<Payload>, accepted: seq<Payload>, i: nat)
    requires |slots| > 0 && i < |accepted|
  {
    slots[i % |slots|] == accepted[i]
  }

  /** Slot i mod |slots| holds payload i, for the last |slots| payloads accepted. */
  predicate Ringed(slots: seq<Payload>, accepted: seq<Payload>, next: nat) {
    && (slots == [] ==> accepted == [] && next == 0)
    && (slots != [] ==>
      && next == |accepted| % |slots|
      && forall i: nat :: i < |accepted| <= i + |slots| ==> Holds(slots, accepted, i))
  }

  /** V(S) and V(R) are, modulo 8, the counts of payloads accepted and delivered since the reset; the
      window is respected; and the ring holds what may have to be sent again. */
  predicate Sequenced(q: Sequence) {
    && |q.slots| <= 7
    && q.vs == |q.accepted| % MOD8 && q.vr == |q.received| % MOD8
    && Outstanding(q) <= |q.slots| && Outstanding(q) <= |q.accepted|
    && Ringed(q.slots, q.accepted, q.nextSlot)
  }

  lemma AckArithmetic(vs: Mod8, va: Mod8, nr: Mod8)
    requires Ahead(nr, va) <= Ahead(vs, va)
    ensures Ahead(vs, nr) == Ahead(vs, va) - Ahead(nr, va)
  {}

  /** A valid N(R) moves V(A) forward, and no further than V(S). */
  lemma AckKeeps(q: Sequence, nr: Mod8)
    requires Sequenced(q) && NrIsValid(q, nr)
    ensures Sequenced(q.(va := nr)) && Acked(q) <= Acked(q.(va := nr)) <= |q.accepted|
    ensures Acked(q.(va := nr)) == Acked(q) + Ahead(nr, q.va)
  {
    AckArithmetic(q.vs, q.va, nr);
  }

  lemma TakeKeeps(q: Sequence, info: Payload)
    requires Sequenced(q)
    ensures Sequenced(q.(vr := (q.vr + 1) % MOD8, received := q.received + [info]))
  {}

  lemma ResetKeeps(q: Sequence)
    requires |q.slots| <= 7
    ensures Sequenced(Sequence(0, 0, 0, 0, NoPayloads(|q.slots|), [], []))
  {}

  lemma EnterKeepsRing(slots: seq<Payload>, accepted: seq<Payload>, next: nat, p: Payload)
    requires slots != [] && Ringed(slots, accepted, next)
    ensures Ringed(slots[next := p], accepted + [p], (next + 1) % |slots|)
  {
    var slots', accepted' := slots[next := p], accepted + [p];
    Modular.NextOfRemainder(|accepted|, |slots|);
    forall i: nat | i < |accepted'| <= i + |slots'| ensures Holds(slots', accepted', i) {
      if i < |accepted| {
        Modular.Distinct(i, |accepted|, |slots|);
        assert Holds(slots, accepted, i);
      }
    }
  }

  lemma OneMoreOut(vs: Mod8, va: Mod8)
    requires Ahead(vs, va) < 7
    ensures Ahead((vs + 1) % MOD8, va) == Ahead(vs, va) + 1
  {}

  lemma EnterKeeps(q: Sequence, p: Payload)
    requires Sequenced(q) && Outstanding(q) < |q.slots|
    ensures Sequenced(Enter(q, p)) && Acked(Enter(q, p)) == Acked(q)
  {
    OneMoreOut(q.vs, q.va);
    Modular.NextOfRemainder(|q.accepted|, MOD8);
    EnterKeepsRing(q.slots, q.accepted, q.nextSlot, p);
  }

  /** What a received frame does to the sequence numbers. */
  function SequenceAfter(state: State, q: Sequence, f: Frame): Sequence {
    match f.control
    case I(ns, nr, pf) =>
      if !state.Connected? || !NrIsValid(q, nr) then q
      else if ns == q.vr then q.(va := nr, vr := (q.vr + 1) % MOD8, received := q.received + [f.info])
      else q.(va := nr)
    case S(kind, nr, pf) =>
      if !state.Connected? || !NrIsValid(q, nr) then q else q.(va := nr)
    case U(code, pf) =>
      if ResetBy(state, code, pf) then Sequence(0, 0, 0, 0, NoPayloads(|q.slots|), [], []) else q
  }

  /** The unnumbered frames that execute `reset_state`. */
  predicate ResetBy(state: State, code: Octet, pf: bool) {
    match state
    case Disconnected => code == U_SABM
    case Connecting => code == U_UA && pf
    case Connected => code == U_SABM || code == U_DISC || code == U_DM || code == U_FRMR
    case Disconnecting => false
    case FrmrError => code == U_SABM
  }

  lemma ISequence(l: Link, ns: Mod8, nr: Mod8, pf: bool, info: Payload)
    ensures HandleI(l, ns, nr, pf, info).q == SequenceAfter(Connected, l.q, Frame(0, I(ns, nr, pf), info))
  {}

  lemma SSequence(l: Link, address: Octet, kind: Supervisory, nr: Mod8, pf: bool)
    ensures HandleS(l, address, kind, nr, pf).q == SequenceAfter(Connected, l.q, Frame(0, S(kind, nr, pf), []))
  {}

  lemma USequence(l: Link, address: Octet, code: Octet, pf: bool, info: Payload, emptied: bool)
    ensures HandleU(l, address, code, pf, info, emptied).q == SequenceAfter(Connected, l.q, Frame(0, U(code, pf), info))
  {}

  lemma ConnectedSequence(l: Link, f: Frame)
    ensures InConnected(l, f.address, f.control, f.info, f.emptied).q == SequenceAfter(Connected, l.q, f)
  {
    match f.control
    case I(ns, nr, pf) => ISequence(l, ns, nr, pf, f.info);
    case S(kind, nr, pf) => SSequence(l, f.address, kind, nr, pf);
    case U(code, pf) => USequence(l, f.address, code, pf, f.info, f.emptied);
  }

  lemma UnconnectedSequence(l: Link, f: Frame)
    ensures InDisconnected(l, f.control, f.info).q == SequenceAfter(Disconnected, l.q, f)
    ensures InFrmrError(l, f.control).q == SequenceAfter(FrmrError, l.q, f)
  {}

  lemma ConnectingSequence(l: Link, f: Frame)
    ensures InConnecting(l, f.control).q == SequenceAfter(Connecting, l.q, f)
  {}

  lemma DisconnectingSequence(l: Link, f: Frame)
    ensures InDisconnecting(l, f.control).q == SequenceAfter(Disconnecting, l.q, f)
  {}

  /** Of a received frame, the sequence numbers take exactly this. */
  lemma DispatchSequence(l: Link, f: Frame)
    ensures Dispatch(l, f).q == SequenceAfter(l.state, l.q, f)
  {
    match l.state
    case Connected => ConnectedSequence(l, f);
    case Disconnected => UnconnectedSequence(l, f);
    case FrmrError => UnconnectedSequence(l, f);
    case Connecting => ConnectingSequence(l, f);
    case Disconnecting => DisconnectingSequence(l, f);
  }

  lemma ReceiptKeepsSequenced(state: State, q: Sequence, f: Frame)
    requires Sequenced(q)
    ensures Sequenced(SequenceAfter(state, q, f))
  {
    match f.control
    case I(ns, nr, pf) =>
      if NrIsValid(q, nr) {
        AckKeeps(q, nr);
        TakeKeeps(q.(va := nr), f.info);
      }
    case S(kind, nr, pf) =>
      if NrIsValid(q, nr) {
        AckKeeps(q, nr);
      }
    case U(_, _) => ResetKeeps(q);
  }

  // ---------------------------------------------------------------------------------------------
  // Timers and retries
  // ---------------------------------------------------------------------------------------------

  /** T1 runs, or a replay that will start it is due, whenever something is unanswered. */
  predicate TimersCover(l: Link) {
    && (l.state.Connected? && l.q.va != l.q.vs ==> l.flags.t1 || l.pending)
    && (l.state.Connecting? || l.state.Disconnecting? ==> l.flags.t1)
  }

  predicate RetriesBounded(l: Link) {
    l.n2 < 256 && (1 <= l.cfg.maxRetries <= 254 ==> l.n2 <= l.cfg.maxRetries)
  }

  /** What holds of a station at every moment between two received frames. */
  predicate Inside(l: Link) {
    && |l.q.slots| == l.cfg.slotCount && Sequenced(l.q)
    && TimersCover(l) && RetriesBounded(l) && l.log.told <= |l.q.received|
  }

  /** What holds between two calls. */
  predicate Invariant(l: Link) { Inside(l) && !l.pending }

  lemma IKeepsTimers(l: Link, ns: Mod8, nr: Mod8, pf: bool, info: Payload)
    requires TimersCover(l) && l.state.Connected?
    ensures TimersCover(HandleI(l, ns, nr, pf, info))
  {}

  lemma SKeepsTimers(l: Link, address: Octet, kind: Supervisory, nr: Mod8, pf: bool)
    requires TimersCover(l) && l.state.Connected? && |l.q.slots| == l.cfg.slotCount && Sequenced(l.q)
    ensures TimersCover(HandleS(l, address, kind, nr, pf))
  {
    if NrIsValid(l.q, nr) {
      AckKeeps(l.q, nr);
    }
  }

  lemma UKeepsTimers(l: Link, address: Octet, code: Octet, pf: bool, info: Payload, emptied: bool)
    requires TimersCover(l) && l.state.Connected?
    ensures TimersCover(HandleU(l, address, code, pf, info, emptied))
  {}

  lemma UnconnectedKeepsTimers(l: Link, c: Control, info: Payload)
    requires TimersCover(l)
    ensures l.state.Disconnected? ==> TimersCover(InDisconnected(l, c, info))
    ensures l.state.FrmrError? ==> TimersCover(InFrmrError(l, c))
  {}

  lemma ConnectingKeepsTimers(l: Link, c: Control)
    requires TimersCover(l) && l.state.Connecting?
    ensures TimersCover(InConnecting(l, c))
  {}

  lemma DisconnectingKeepsTimers(l: Link, c: Control)
    requires TimersCover(l) && l.state.Disconnecting?
    ensures TimersCover(InDisconnecting(l, c))
  {
    if !c.U? {
    } else if c.code == U_SABM || c.code == U_SABME {
    } else if c.code == U_DISC {
    } else if c.code == U_UA {
    } else if c.code == U_DM {
    }
  }

  lemma DispatchKeepsTimers(l: Link, f: Frame)
    requires TimersCover(l) && |l.q.slots| == l.cfg.slotCount && Sequenced(l.q)
    ensures TimersCover(Dispatch(l, f))
  {
    match l.state
    case Connected =>
      match f.control {
        case I(ns, nr, pf) => IKeepsTimers(l, ns, nr, pf, f.info);
        case S(kind, nr, pf) => SKeepsTimers(l, f.address, kind, nr, pf);
        case U(code, pf) => UKeepsTimers(l, f.address, code, pf, f.info, f.emptied);
      }
    case Disconnected => UnconnectedKeepsTimers(l, f.control, f.info);
    case FrmrError => UnconnectedKeepsTimers(l, f.control, f.info);
    case Connecting => ConnectingKeepsTimers(l, f.control);
    case Disconnecting => DisconnectingKeepsTimers(l, f.control);
  }

  /** What else a received frame may do: nothing to the configuration; n2 restarts or stays; the epoch
      counts resets; and the last N(R) sent is never ahead of the deliveries. */
  predicate Bookkeeping(l: Link, l': Link, resets: bool) {
    && l'.cfg == l.cfg && l'.peer == l.peer
    && (l'.n2 == l.n2 || l'.n2 == 0)
    && l'.epoch == l.epoch + (if resets then 1 else 0)
    && (l.log.told <= |l.q.received| ==> l'.log.told <= |l'.q.received|)
  }

  predicate Resets(state: State, c: Control) { c.U? && ResetBy(state, c.code, c.pf) }

  lemma IBookkeeping(l: Link, ns: Mod8, nr: Mod8, pf: bool, info: Payload)
    ensures Bookkeeping(l, HandleI(l, ns, nr, pf, info), false)
  {}

  lemma BookkeepingTwice(a: Link, b: Link, c: Link)
    requires Bookkeeping(a, b, false) && Bookkeeping(b, c, false)
    ensures Bookkeeping(a, c, false)
  {}

  lemma BeforeNrBookkeeping(l: Link, address: Octet, kind: Supervisory, pf: bool)
    ensures Bookkeeping(l, BeforeNr(l, address, kind, pf), false)
  {}

  lemma AfterNrBookkeeping(l: Link, kind: Supervisory, nr: Mod8, final: bool)
    ensures Bookkeeping(l, AfterFinal(AfterNr(l, kind, nr), final), false)
  {}

  lemma RejectBookkeeping(l: Link, c: Control)
    ensures Bookkeeping(l, RejectNr(l, c), false)
  {}

  lemma SBookkeeping(l: Link, address: Octet, kind: Supervisory, nr: Mod8, pf: bool)
    ensures Bookkeeping(l, HandleS(l, address, kind, nr, pf), false)
  {
    var m := BeforeNr(l, address, kind, pf);
    BeforeNrBookkeeping(l, address, kind, pf);
    RejectBookkeeping(m, S(kind, nr, pf));
    AfterNrBookkeeping(m, kind, nr, !IsCommand(l, address) && pf);
    BookkeepingTwice(l, m, HandleS(l, address, kind, nr, pf));
  }

  lemma ResettingUBookkeeping(l: Link, address: Octet, code: Octet, pf: bool, info: Payload, emptied: bool)
    requires ResetBy(Connected, code, pf)
    ensures Bookkeeping(l, HandleU(l, address, code, pf, info, emptied), true)
  {}

  lemma OtherUBookkeeping(l: Link, address: Octet, code: Octet, pf: bool, info: Payload, emptied: bool)
    requires !ResetBy(Connected, code, pf)
    ensures Bookkeeping(l, HandleU(l, address, code, pf, info, emptied), false)
  {}

  lemma UnconnectedBookkeeping(l: Link, c: Control, info: Payload)
    ensures Bookkeeping(l, InDisconnected(l, c, info), Resets(Disconnected, c))
    ensures Bookkeeping(l, InFrmrError(l, c), Resets(FrmrError, c))
  {}

  lemma ConnectingBookkeeping(l: Link, c: Control)
    ensures Bookkeeping(l, InConnecting(l, c), Resets(Connecting, c))
  {}

  lemma DisconnectingBookkeeping(l: Link, c: Control)
    ensures Bookkeeping(l, InDisconnecting(l, c), Resets(Disconnecting, c))
  {}

  lemma DispatchBookkeeping(l: Link, f: Frame)
    ensures Bookkeeping(l, Dispatch(l, f), Resets(l.state, f.control))
  {
    match l.state
    case Connected =>
      match f.control {
        case I(ns, nr, pf) => IBookkeeping(l, ns, nr, pf, f.info);
        case S(kind, nr, pf) => SBookkeeping(l, f.address, kind, nr, pf);
        case U(code, pf) =>
          if ResetBy(Connected, code, pf) {
            ResettingUBookkeeping(l, f.address, code, pf, f.info, f.emptied);
          } else {
            OtherUBookkeeping(l, f.address, code, pf, f.info, f.emptied);
          }
      }
    case Disconnected => UnconnectedBookkeeping(l, f.control, f.info);
    case FrmrError => UnconnectedBookkeeping(l, f.control, f.info);
    case Connecting => ConnectingBookkeeping(l, f.control);
    case Disconnecting => DisconnectingBookkeeping(l, f.control);
  }

  lemma AfterSequenceSlots(state: State, q: Sequence, f: Frame)
    ensures |SequenceAfter(state, q, f).slots| == |q.slots|
  {}

  /** Whatever frame arrives, in whatever state, the station's invariant survives it. */
  lemma DispatchKeepsInside(l: Link, f: Frame)
    requires Inside(l)
    ensures Inside(Dispatch(l, f))
  {
    DispatchSequence(l, f);
    ReceiptKeepsSequenced(l.state, l.q, f);
    AfterSequenceSlots(l.state, l.q, f);
    DispatchKeepsTimers(l, f);
    DispatchBookkeeping(l, f);
  }

  lemma OneDispatch(l: Link, f: Frame)
    ensures DispatchAll(l, [f]) == Dispatch(l, f)
  {
    assert [f][..0] == [];
    assert DispatchAll(l, [f][..0]) == l;
  }

  lemma {:induction false} DispatchInParts(l: Link, fs: seq<Frame>, gs: seq<Frame>)
    ensures DispatchAll(l, fs + gs) == DispatchAll(DispatchAll(l, fs), gs)
  {
    if gs == [] {
      assert fs + gs == fs;
    } else {
      DispatchInParts(l, fs, gs[..|gs| - 1]);
      assert (fs + gs)[..|fs + gs| - 1] == fs + gs[..|gs| - 1];
    }
  }

  lemma {:induction false} DispatchAllKeepsInside(l: Link, fs: seq<Frame>)
    requires Inside(l)
    ensures Inside(DispatchAll(l, fs))
  {
    if fs != [] {
      DispatchAllKeepsInside(l, fs[..|fs| - 1]);
      DispatchKeepsInside(DispatchAll(l, fs[..|fs| - 1]), fs[|fs| - 1]);
    }
  }

  // ---------------------------------------------------------------------------------------------
  // Runs
  // ---------------------------------------------------------------------------------------------

  /** The calls made on a station; Receive is one call of `data_in` that completes these frames. */
  datatype Call =
    | Receive(frames: seq<Frame>)
    | Transmit(payload: Payload)
    | Ui(address: Octet, payload: Payload)
    | Test(address: Octet, payload: Payload)
    | T1Expiry | T2Expiry
    | Busy(busy: bool)
    | Setup(address: Octet)
    | Disc | Reset | AbortAll

  predicate Allowed(l: Link, c: Call) {
    match c
    case Receive(frames) => ReplayDefined(DispatchAll(l, frames))
    case Transmit(_) => RingSized(l)
    case _ => true
  }

  function Do(l: Link, c: Call): Link
    requires Allowed(l, c)
  {
    match c
    case Receive(frames) => DataIn(l, frames)
    case Transmit(p) => TransmitI(l, p)
    case Ui(address, p) => TransmitUi(l, address, p)
    case Test(address, p) => TransmitTest(l, address, p)
    case T1Expiry => T1Expired(l)
    case T2Expiry => T2Expired(l)
    case Busy(busy) => SetLocalBusy(l, busy)
    case Setup(address) => LinkSetup(l, address)
    case Disc => Disconnect(l)
    case Reset => LinkReset(l)
    case AbortAll => Abort(l)
  }

  predicate Step(l: Link, c: Call, l': Link) { Allowed(l, c) && l' == Do(l, c) }

  predicate StepAt(ls: seq<Link>, calls: seq<Call>, k: nat)
    requires k < |calls| && k + 1 < |ls|
  {
    Step(ls[k], calls[k], ls[k + 1])
  }

  /** Just initialised, with at most seven slots. */
  predicate Starts(l: Link) { |l.q.slots| == l.cfg.slotCount <= 7 && l == Initial(l.cfg, l.q.slots) }

  /** The states of a station between calls, from its initialisation on. */
  predicate IsRun(ls: seq<Link>, calls: seq<Call>) {
    && |ls| == |calls| + 1 && Starts(ls[0])
    && forall k: nat :: k < |calls| ==> StepAt(ls, calls, k)
  }

  lemma ThreeCalls(ls: seq<Link>, calls: seq<Call>)
    requires |ls| == 4 && |calls| == 3 && Starts(ls[0])
    requires StepAt(ls, calls, 0) && StepAt(ls, calls, 1) && StepAt(ls, calls, 2)
    ensures IsRun(ls, calls)
  {}

  lemma FlushKeepsInvariant(l: Link)
    requires Inside(l) && ReplayDefined(l)
    ensures Invariant(Flush(l))
  {}

  lemma TransmitKeepsInvariant(l: Link, p: Payload)
    requires Invariant(l)
    ensures RingSized(l) && Invariant(TransmitI(l, p))
  {
    if TransmitIError(l, p) == Ok {
      EnterKeeps(l.q, p);
    }
  }

  lemma FailureKeepsInvariant(l: Link)
    requires Invariant(l)
    ensures Invariant(ResetState(SetState(CountRetry(l), Disconnected, LinkFailure)))
  {
    ResetKeeps(l.q);
  }

  lemma RetryKeepsInvariant(l: Link)
    requires Invariant(l) && !RetriesExhausted(CountRetry(l))
    ensures Invariant(Retry(CountRetry(l)))
  {
    match l.state
    case Connecting =>
    case Disconnecting =>
    case Connected =>
    case FrmrError =>
    case Disconnected =>
  }

  lemma T1KeepsInvariant(l: Link)
    requires Invariant(l)
    ensures Invariant(T1Expired(l))
  {
    if RetriesExhausted(CountRetry(l)) {
      FailureKeepsInvariant(l);
    } else {
      RetryKeepsInvariant(l);
    }
  }

  lemma SetupKeepsInvariant(l: Link, address: Octet)
    requires Invariant(l)
    ensures Invariant(LinkSetup(l, address))
  {}

  lemma DisconnectKeepsInvariant(l: Link)
    requires Invariant(l)
    ensures Invariant(Disconnect(l))
  {}

  lemma BusyKeepsInvariant(l: Link, busy: bool)
    requires Invariant(l)
    ensures Invariant(SetLocalBusy(l, busy))
  {}

  lemma T2KeepsInvariant(l: Link)
    requires Invariant(l)
    ensures Invariant(T2Expired(l))
  {}

  lemma ResetsKeepInvariant(l: Link)
    requires Invariant(l)
    ensures Invariant(LinkReset(l)) && Invariant(Abort(l))
  {
    ResetKeeps(l.q);
  }

  lemma StepKeepsInvariant(l: Link, c: Call)
    requires Invariant(l) && Allowed(l, c)
    ensures Invariant(Do(l, c))
  {
    match c
    case Receive(frames) =>
      DispatchAllKeepsInside(l, frames);
      FlushKeepsInvariant(DispatchAll(l, frames));
    case Transmit(p) => TransmitKeepsInvariant(l, p);
    case Ui(_, _) =>
    case Test(_, _) =>
    case T1Expiry => T1KeepsInvariant(l);
    case T2Expiry => T2KeepsInvariant(l);
    case Busy(busy) => BusyKeepsInvariant(l, busy);
    case Setup(address) => SetupKeepsInvariant(l, address);
    case Disc => DisconnectKeepsInvariant(l);
    case Reset => ResetsKeepInvariant(l);
    case AbortAll => ResetsKeepInvariant(l);
  }

  /** Window, ring, timer and retry safety in every state of every run, whatever the peer sends. */
  lemma {:induction false} RunsKeepInvariant(ls: seq<Link>, calls: seq<Call>, k: nat)
    requires IsRun(ls, calls) && k < |ls|
    ensures Invariant(ls[k])
    decreases k
  {
    if k == 0 {
    } else {
      RunsKeepInvariant(ls, calls, k - 1);
      assert StepAt(ls, calls, k - 1);
      StepKeepsInvariant(ls[k - 1], calls[k - 1]);
    }
  }

  /** The guard on the calls of user and timers shuts nothing out: the ring is always in shape. */
  lemma OwnCallsAreAllowed(ls: seq<Link>, calls: seq<Call>, k: nat, c: Call)
    requires IsRun(ls, calls) && k < |ls| && !c.Receive?
    ensures Allowed(ls[k], c)
  {
    RunsKeepInvariant(ls, calls, k);
  }
}

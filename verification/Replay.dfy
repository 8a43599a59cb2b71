/** The deferred Go-Back-N replay of src/hdlc_in.c: what it sends, and when it is safe.
  */
module Replay {
  import opened Crc
  import opened Frame
  import opened Link
  import opened Runs
  import opened Epochs
  import Modular

  /** A due replay starts at most one window, and one history, back. */
  predicate Due(q: Sequence, from: Mod8) {
    0 < Ahead(q.vs, from) <= |q.slots| && Ahead(q.vs, from) <= |q.accepted|
  }

  predicate ReplayOk(l: Link) { l.pending ==> Due(l.q, l.retransmitFrom) }

  // ---------------------------------------------------------------------------------------------
  // The replay is faithful
  // ---------------------------------------------------------------------------------------------

  /** Of an operand that is not negative the code takes the slot one expects; of a negative one it takes a slot
      within the memory just when slot_count divides it. */
  lemma OperandInBounds(operand: int, w: nat)
    requires 0 < w <= 7 && operand > -8
    ensures operand >= 0 ==> CRemainder(operand, w) % 256 == operand % w
    ensures CRemainder(operand, w) % 256 < w <==> operand >= 0 || operand % w == 0
  {
    if operand < 0 {
      match w {
        case 1 =>
        case 2 =>
        case 3 =>
        case 4 =>
        case 5 =>
        case 6 =>
        case 7 =>
      }
    } else {
      Modular.DivMod(operand, w);
    }
  }

  /** The slot that the code computes for the k-th frame of the replay is the slot of that payload. */
  lemma SlotOfReplay(n: nat, next: nat, w: nat, span: nat, k: nat)
    requires 0 < w && next == n % w && span <= w && span <= n && k < span
    ensures next + w - span >= 0 && ((next + w - span) % w + k) % w == (n - span + k) % w
  {
    Modular.Sum(next + w - span, k, w);
    Modular.Sum(n, w - span + k, w);
    Modular.Turn(n - span + k, w);
    assert n + (w - span + k) == (n - span + k) + w;
  }

  lemma SlotFromFirst(n: nat, next: nat, w: nat, span: nat, k: nat, first: nat)
    requires 0 < w && next == n % w && span <= w && span <= n && k < span && first == (next + w - span) % w
    ensures (first + k) % w == (n - span + k) % w
  {
    SlotOfReplay(n, next, w, span, k);
  }

  lemma Behind(n: Mod8, from: Mod8, a: Mod8)
    requires Ahead((n + a) % MOD8, from) == a
    ensures n == from
  {}

  lemma NumberOfReplay(vs: Mod8, n: nat, from: Mod8, k: nat)
    requires vs == n % MOD8 && Ahead(vs, from) <= n
    ensures (from + k) % MOD8 == (n - Ahead(vs, from) + k) % MOD8
  {
    Modular.Sum(n - Ahead(vs, from), Ahead(vs, from), MOD8);
    Behind((n - Ahead(vs, from)) % MOD8, from, Ahead(vs, from));
    Modular.Sum(n - Ahead(vs, from), k, MOD8);
  }

  /** I-frame number i as it was first sent, but for N(R). */
  predicate Repeats(s: Sent, l: Link, i: nat)
    requires i < |l.q.accepted|
  {
    s == Sent(Frame(l.peer, I(i % MOD8, l.q.vr, false), l.q.accepted[i]), i, |l.q.received|, |l.q.accepted|)
  }

  lemma SoundReplayIsDefined(l: Link)
    requires Inside(l) && ReplayOk(l)
    ensures ReplayDefined(l)
  {
    if l.pending {
      OperandInBounds(SlotOperand(l), |l.q.slots|);
    }
  }

  lemma FirstSlotIs(l: Link)
    requires Inside(l) && l.pending && ReplayOk(l)
    ensures 0 <= SlotOperand(l) && FirstSlot(l) == SlotOperand(l) % |l.q.slots|
  {
    OperandInBounds(SlotOperand(l), |l.q.slots|);
  }

  lemma SlotOfReplayedFrame(l: Link, k: nat)
    requires Inside(l) && l.pending && ReplayOk(l) && k < Span(l)
    ensures (FirstSlot(l) + k) % l.cfg.slotCount == (|l.q.accepted| - Span(l) + k) % |l.q.slots|
  {
    FirstSlotIs(l);
    SlotFromFirst(|l.q.accepted|, l.q.nextSlot, |l.q.slots|, Span(l), k, FirstSlot(l));
  }

  lemma SlotOfReplayedPayload(l: Link, k: nat, i: nat)
    requires Inside(l) && l.pending && ReplayOk(l) && k < Span(l) && i == |l.q.accepted| - Span(l) + k
    ensures l.q.slots[(FirstSlot(l) + k) % l.cfg.slotCount] == l.q.accepted[i]
  {
    SlotOfReplayedFrame(l, k);
    assert Holds(l.q.slots, l.q.accepted, i);
  }

  lemma ReplayedFrameRepeats(l: Link, k: nat)
    requires Inside(l) && l.pending && ReplayOk(l) && k < Span(l)
    ensures ReplayDefined(l)
    ensures Repeats(ReplayedFrame(l, k), l, |l.q.accepted| - Span(l) + k)
  {
    SoundReplayIsDefined(l);
    SlotOfReplayedPayload(l, k, |l.q.accepted| - Span(l) + k);
    NumberOfReplay(l.q.vs, |l.q.accepted|, l.retransmitFrom, k);
  }

  /** The replay sends the last payloads accepted, from N(S) = the trigger's N(R) on, each under its own
      number and from its own slot, and leaves V(S), the ring and the histories as they were. */
  lemma ReplayIsFaithful(l: Link)
    requires Inside(l) && l.pending && ReplayOk(l)
    ensures ReplayDefined(l) && |Replayed(l)| == Span(l) <= |l.q.accepted|
    ensures forall k: nat :: k < Span(l) ==> Repeats(Replayed(l)[k], l, |l.q.accepted| - Span(l) + k)
    ensures Flush(l).q == l.q && Flush(l).log.out == l.log.out + Replayed(l) && !Flush(l).pending
  {
    forall k: nat | k < Span(l)
      ensures ReplayDefined(l) && Repeats(Replayed(l)[k], l, |l.q.accepted| - Span(l) + k)
    {
      ReplayedFrameRepeats(l, k);
    }
  }

  // ---------------------------------------------------------------------------------------------
  // Triggers
  // ---------------------------------------------------------------------------------------------

  /** If a replay is due, it was so before, or it now starts at V(A) with frames to send. */
  predicate TriggeredAtVa(l: Link, l': Link) {
    l'.pending && !(l.pending && l'.retransmitFrom == l.retransmitFrom) ==>
      l'.retransmitFrom == l'.q.va != l'.q.vs && l'.cfg.slotCount > 0
  }

  lemma NrTriggers(l: Link, kind: Supervisory, nr: Mod8)
    ensures TriggeredAtVa(l, AfterNr(l, kind, nr)) && AfterNr(l, kind, nr).q.va == nr
    ensures l.pending ==> AfterNr(l, kind, nr).pending
  {}

  lemma FinalTriggers(l: Link, m: Link, final: bool)
    requires TriggeredAtVa(l, m)
    ensures TriggeredAtVa(l, AfterFinal(m, final))
  {}

  lemma STriggers(l: Link, address: Octet, kind: Supervisory, nr: Mod8, pf: bool)
    ensures TriggeredAtVa(l, HandleS(l, address, kind, nr, pf))
    ensures l.pending ==> HandleS(l, address, kind, nr, pf).pending
  {
    if NrIsValid(l.q, nr) {
      NrTriggers(BeforeNr(l, address, kind, pf), kind, nr);
      FinalTriggers(BeforeNr(l, address, kind, pf), AfterNr(BeforeNr(l, address, kind, pf), kind, nr),
                    !IsCommand(l, address) && pf);
    }
  }

  lemma TakingTriggers(l: Link, ns: Mod8, pf: bool, info: Payload)
    ensures ByNs(l, ns, pf, info).pending == l.pending
    ensures ByNs(l, ns, pf, info).retransmitFrom == l.retransmitFrom
  {}

  lemma ITriggers(l: Link, ns: Mod8, nr: Mod8, pf: bool, info: Payload)
    ensures HandleI(l, ns, nr, pf, info).pending == l.pending
    ensures HandleI(l, ns, nr, pf, info).retransmitFrom == l.retransmitFrom
  {
    TakingTriggers(ProcessNr(l, nr), ns, pf, info);
  }

  lemma UTriggers(l: Link, address: Octet, code: Octet, pf: bool, info: Payload, emptied: bool)
    ensures HandleU(l, address, code, pf, info, emptied).pending == l.pending
    ensures HandleU(l, address, code, pf, info, emptied).retransmitFrom == l.retransmitFrom
  {}

  lemma UnconnectedTriggers(l: Link, c: Control, info: Payload)
    ensures TriggeredAtVa(l, InDisconnected(l, c, info)) && TriggeredAtVa(l, InFrmrError(l, c))
    ensures InDisconnected(l, c, info).pending == InFrmrError(l, c).pending == l.pending
  {}

  lemma PassingTriggers(l: Link, c: Control)
    ensures TriggeredAtVa(l, InConnecting(l, c)) && TriggeredAtVa(l, InDisconnecting(l, c))
    ensures InConnecting(l, c).pending == InDisconnecting(l, c).pending == l.pending
  {}

  lemma DispatchTriggers(l: Link, f: Frame)
    ensures TriggeredAtVa(l, Dispatch(l, f)) && (l.pending ==> Dispatch(l, f).pending)
    ensures f.control.U? ==> Dispatch(l, f).pending == l.pending
  {
    match l.state
    case Connected =>
      match f.control {
        case I(ns, nr, pf) => ITriggers(l, ns, nr, pf, f.info);
        case S(kind, nr, pf) => STriggers(l, f.address, kind, nr, pf);
        case U(code, pf) => UTriggers(l, f.address, code, pf, f.info, f.emptied);
      }
    case Disconnected => UnconnectedTriggers(l, f.control, f.info);
    case FrmrError => UnconnectedTriggers(l, f.control, f.info);
    case Connecting => PassingTriggers(l, f.control);
    case Disconnecting => PassingTriggers(l, f.control);
  }

  lemma VsOnlyResets(state: State, q: Sequence, f: Frame)
    requires !Resets(state, f.control)
    ensures SequenceAfter(state, q, f).vs == q.vs && SequenceAfter(state, q, f).accepted == q.accepted
    ensures SequenceAfter(state, q, f).slots == q.slots
  {}

  /** A frame that resets nothing leaves a due replay due, or triggers a sound one. */
  lemma DispatchKeepsReplayOk(l: Link, f: Frame)
    requires Inside(l) && ReplayOk(l) && !Resets(l.state, f.control)
    ensures ReplayOk(Dispatch(l, f))
  {
    DispatchTriggers(l, f);
    DispatchSequence(l, f);
    VsOnlyResets(l.state, l.q, f);
    DispatchKeepsInside(l, f);
  }

  /** One frame per call: the replay is then always defined, and repeats exactly the frames between V(A)
      and V(S), in order. */
  lemma OneFrameReplaysOutstanding(l: Link, f: Frame)
    requires Invariant(l)
    ensures Allowed(l, Receive([f])) && ReplayOk(Dispatch(l, f))
    ensures Dispatch(l, f).pending ==>
      |l.q.accepted| - Span(Dispatch(l, f)) == Acked(Dispatch(l, f).q) < |l.q.accepted|
  {
    OneDispatch(l, f);
    DispatchTriggers(l, f);
    DispatchKeepsInside(l, f);
    if !Resets(l.state, f.control) {
      DispatchKeepsReplayOk(l, f);
      DispatchSequence(l, f);
      VsOnlyResets(l.state, l.q, f);
    }
    SoundReplayIsDefined(Dispatch(l, f));
  }

  // ---------------------------------------------------------------------------------------------
  // A reset between the trigger and the replay
  // ---------------------------------------------------------------------------------------------

  /** The replay of the numbers from this one to the end of the circle begins within an empty ring of w slots. */
  predicate StartsInMemory(from: Mod8, w: nat)
    requires 0 < w
  {
    from == 0 || MOD8 - from <= w || (MOD8 - from) % w == 0
  }

  /** `reset_state` does not cancel a due replay: the replay still comes, and only a trigger at N(R) = 0
      makes it empty.  Otherwise it sends frames for payloads that nobody has handed over since the reset,
      and it begins within the slot memory just when the window has room for that many, or divides their number. */
  lemma ResetLeavesReplayDue(l: Link, f: Frame)
    requires Inside(l) && l.pending && l.cfg.slotCount > 0 && Resets(l.state, f.control)
    ensures Dispatch(l, f).pending && Dispatch(l, f).q.accepted == []
    ensures ReplayDefined(Dispatch(l, f)) <==> StartsInMemory(l.retransmitFrom, l.cfg.slotCount)
    ensures !ReplayOk(Dispatch(l, f))
    ensures Span(Dispatch(l, f)) == 0 <==> l.retransmitFrom == 0
  {
    DispatchTriggers(l, f);
    DispatchSequence(l, f);
    DispatchKeepsInside(l, f);
    DispatchBookkeeping(l, f);
    ResetKeepsFrom(l, f);
    OperandInBounds(l.cfg.slotCount - Ahead(0, l.retransmitFrom), l.cfg.slotCount);
    OperandAfterReset(l.retransmitFrom, l.cfg.slotCount);
  }

  lemma OperandAfterReset(from: Mod8, w: nat)
    requires 0 < w <= 7
    ensures var operand := w - Ahead(0, from);
      (operand >= 0 || operand % w == 0) <==> StartsInMemory(from, w)
  {
    match w
    case 1 =>
    case 2 =>
    case 3 =>
    case 4 =>
    case 5 =>
    case 6 =>
    case 7 =>
  }

  lemma UFrom(l: Link, address: Octet, code: Octet, pf: bool, info: Payload, emptied: bool)
    ensures HandleU(l, address, code, pf, info, emptied).retransmitFrom == l.retransmitFrom
  {}

  lemma UnconnectedFrom(l: Link, c: Control, info: Payload)
    ensures InDisconnected(l, c, info).retransmitFrom == InFrmrError(l, c).retransmitFrom == l.retransmitFrom
  {}

  lemma ConnectingFrom(l: Link, c: Control)
    ensures InConnecting(l, c).retransmitFrom == l.retransmitFrom
  {}

  lemma ResetKeepsFrom(l: Link, f: Frame)
    requires Resets(l.state, f.control)
    ensures Dispatch(l, f).retransmitFrom == l.retransmitFrom
  {
    match l.state
    case Connected => UFrom(l, f.address, f.control.code, f.control.pf, f.info, f.emptied);
    case Disconnected => UnconnectedFrom(l, f.control, f.info);
    case FrmrError => UnconnectedFrom(l, f.control, f.info);
    case Connecting => ConnectingFrom(l, f.control);
  }

  /** With nothing accepted no frame can trigger a replay, nor stop one that is due. */
  lemma NothingToReplay(l: Link, f: Frame)
    requires Inside(l) && l.q.accepted == []
    ensures Dispatch(l, f).q.accepted == [] && Dispatch(l, f).pending == l.pending
    ensures l.pending ==> Dispatch(l, f).retransmitFrom == l.retransmitFrom
    ensures Dispatch(l, f).cfg == l.cfg
  {
    DispatchTriggers(l, f);
    DispatchKeepsInside(l, f);
    DispatchSequence(l, f);
    DispatchBookkeeping(l, f);
    NothingIsAccepted(l.state, l.q, f);
  }

  lemma NothingIsAccepted(state: State, q: Sequence, f: Frame)
    requires q.accepted == []
    ensures SequenceAfter(state, q, f).accepted == []
  {}

  /** The index of the first frame of a call that resets the link in the state that it meets, or past the last. */
  function FirstReset(l: Link, fs: seq<Frame>): (i: nat)
    ensures i <= |fs|
  {
    if fs == [] then 0
    else
      var rest := fs[..|fs| - 1];
      if FirstReset(l, rest) < |rest| then FirstReset(l, rest)
      else if Resets(DispatchAll(l, rest).state, fs[|rest|].control) then |rest| else |fs|
  }

  /** A replay left over from a former epoch. */
  predicate LeftOver(m: Link, l: Link) {
    && l.q.accepted == [] && l.pending == m.pending && l.cfg == m.cfg
    && (m.pending ==> l.retransmitFrom == m.retransmitFrom)
  }

  lemma ResetLeavesOver(l: Link, f: Frame)
    requires Inside(l) && Resets(l.state, f.control)
    ensures LeftOver(l, Dispatch(l, f))
  {
    DispatchTriggers(l, f);
    DispatchSequence(l, f);
    DispatchBookkeeping(l, f);
    ResetKeepsFrom(l, f);
  }

  lemma LeftOverStays(m: Link, l: Link, f: Frame)
    requires Inside(l) && LeftOver(m, l)
    ensures LeftOver(m, Dispatch(l, f))
  {
    NothingToReplay(l, f);
  }

  lemma {:induction false} LeftOverStaysOn(m: Link, l: Link, fs: seq<Frame>)
    requires Inside(l) && LeftOver(m, l)
    ensures LeftOver(m, DispatchAll(l, fs))
  {
    if fs != [] {
      LeftOverStaysOn(m, l, fs[..|fs| - 1]);
      DispatchAllKeepsInside(l, fs[..|fs| - 1]);
      LeftOverStays(m, DispatchAll(l, fs[..|fs| - 1]), fs[|fs| - 1]);
    }
  }

  lemma {:induction false} FirstResetResets(l: Link, fs: seq<Frame>, i: nat)
    requires i == FirstReset(l, fs) < |fs|
    ensures Resets(DispatchAll(l, fs[..i]).state, fs[i].control)
  {
    var rest := fs[..|fs| - 1];
    assert fs[..i] == rest[..i];
    if i < |rest| {
      FirstResetResets(l, rest, i);
    } else {
      assert rest[..i] == rest;
    }
  }

  lemma DispatchFrom(l: Link, fs: seq<Frame>, i: nat)
    requires i < |fs|
    ensures DispatchAll(l, fs) == DispatchAll(Dispatch(DispatchAll(l, fs[..i]), fs[i]), fs[i + 1..])
  {
    assert fs == fs[..i] + ([fs[i]] + fs[i + 1..]);
    DispatchInParts(l, fs[..i], [fs[i]] + fs[i + 1..]);
    DispatchInParts(DispatchAll(l, fs[..i]), [fs[i]], fs[i + 1..]);
    OneDispatch(DispatchAll(l, fs[..i]), fs[i]);
  }

  lemma AfterFirstReset(l: Link, fs: seq<Frame>, i: nat)
    requires Inside(l) && i == FirstReset(l, fs) < |fs|
    ensures LeftOver(DispatchAll(l, fs[..i]), DispatchAll(l, fs))
  {
    FirstResetResets(l, fs, i);
    DispatchAllKeepsInside(l, fs[..i]);
    ResetLeavesOver(DispatchAll(l, fs[..i]), fs[i]);
    DispatchKeepsInside(DispatchAll(l, fs[..i]), fs[i]);
    LeftOverStaysOn(DispatchAll(l, fs[..i]), Dispatch(DispatchAll(l, fs[..i]), fs[i]), fs[i + 1..]);
    DispatchFrom(l, fs, i);
  }

  lemma {:induction false} NoResetSameEpoch(l: Link, fs: seq<Frame>)
    requires FirstReset(l, fs) == |fs|
    ensures DispatchAll(l, fs).epoch == l.epoch
  {
    if fs != [] {
      NoResetSameEpoch(l, fs[..|fs| - 1]);
      DispatchBookkeeping(DispatchAll(l, fs[..|fs| - 1]), fs[|fs| - 1]);
    }
  }

  lemma {:induction false} ResetsComeNoSooner(l: Link, fs: seq<Frame>, n: nat)
    requires n <= FirstReset(l, fs)
    ensures FirstReset(l, fs[..n]) == n
  {
    if fs != [] {
      var rest := fs[..|fs| - 1];
      if n == |fs| {
        assert fs[..n] == fs;
      } else {
        ResetsComeNoSooner(l, rest, n);
        assert fs[..n] == rest[..n];
      }
    }
  }

  /** What a replay left over from a former epoch does. */
  lemma LeftOverBounds(l: Link)
    requires Inside(l) && l.q.accepted == [] && l.pending && l.cfg.slotCount > 0
    ensures ReplayDefined(l) <==> StartsInMemory(l.retransmitFrom, l.cfg.slotCount)
  {
    OperandInBounds(SlotOperand(l), l.cfg.slotCount);
    OperandAfterReset(l.retransmitFrom, l.cfg.slotCount);
  }

  /** The replay due at the first reset of the call, if there is one, begins within an empty ring. */
  predicate StaysInMemory(l: Link, fs: seq<Frame>) {
    var i := FirstReset(l, fs);
    var m := DispatchAll(l, fs[..i]);
    i < |fs| && m.pending ==> m.cfg.slotCount > 0 && StartsInMemory(m.retransmitFrom, m.cfg.slotCount)
  }

  lemma UpToFirstReset(l: Link, fs: seq<Frame>)
    requires Invariant(l)
    ensures Inside(DispatchAll(l, fs[..FirstReset(l, fs)])) && ReplayOk(DispatchAll(l, fs[..FirstReset(l, fs)]))
  {
    ResetsComeNoSooner(l, fs, FirstReset(l, fs));
    NoResetSameEpoch(l, fs[..FirstReset(l, fs)]);
    FramesKeepReplayOk(l, fs[..FirstReset(l, fs)]);
    DispatchAllKeepsInside(l, fs[..FirstReset(l, fs)]);
  }

  /** Of any call of `data_in`, whatever frames it completes: its replay begins within the slot memory if and only
      if the replay due at the first reset, if any, does. */
  lemma CallIsAllowedExactly(l: Link, fs: seq<Frame>)
    requires Invariant(l)
    ensures Allowed(l, Receive(fs)) <==> StaysInMemory(l, fs)
  {
    UpToFirstReset(l, fs);
    if FirstReset(l, fs) == |fs| {
      assert fs[..|fs|] == fs;
      SoundReplayIsDefined(DispatchAll(l, fs));
    } else {
      AfterFirstReset(l, fs, FirstReset(l, fs));
      DispatchAllKeepsInside(l, fs);
      if DispatchAll(l, fs).pending {
        LeftOverBounds(DispatchAll(l, fs));
      }
    }
  }

  /** A replay sends nothing but payloads of the present epoch. */
  predicate SendsNothingStale(l: Link) { l.pending ==> Span(l) <= |l.q.accepted| }

  /** The replay due at the first reset of the call, if there is one, starts at N(R) = 0. */
  predicate LeavesNothing(l: Link, fs: seq<Frame>) {
    var i := FirstReset(l, fs);
    var m := DispatchAll(l, fs[..i]);
    i < |fs| && m.pending ==> m.retransmitFrom == 0
  }

  lemma LeftOverSpan(l: Link)
    requires Inside(l) && l.q.accepted == [] && l.pending
    ensures SendsNothingStale(l) <==> l.retransmitFrom == 0
  {}

  /** And its replay sends nothing that the station was not handed since the last reset if and only if the replay due at
      the first reset, if any, would be empty from there on. */
  lemma CallSendsNothingStaleExactly(l: Link, fs: seq<Frame>)
    requires Invariant(l)
    ensures SendsNothingStale(DispatchAll(l, fs)) <==> LeavesNothing(l, fs)
  {
    UpToFirstReset(l, fs);
    if FirstReset(l, fs) == |fs| {
      assert fs[..|fs|] == fs;
    } else {
      AfterFirstReset(l, fs, FirstReset(l, fs));
      DispatchAllKeepsInside(l, fs);
      if DispatchAll(l, fs).pending {
        LeftOverSpan(DispatchAll(l, fs));
      }
    }
  }

  lemma TwoDispatches(l: Link, f: Frame, g: Frame)
    ensures DispatchAll(l, [f, g]) == Dispatch(Dispatch(l, f), g)
  {
    OneDispatch(l, f);
    assert [f, g][..1] == [f];
  }

  lemma RejIsTriggered(l: Link, nr: Mod8)
    requires Invariant(l) && l.state.Connected? && NrIsValid(l.q, nr) && nr != l.q.vs
    ensures HandleS(l, l.cfg.my, REJ, nr, false).pending && HandleS(l, l.cfg.my, REJ, nr, false).retransmitFrom == nr
    ensures HandleS(l, l.cfg.my, REJ, nr, false).state.Connected? && l.cfg.slotCount > 0
    ensures HandleS(l, l.cfg.my, REJ, nr, false).cfg == l.cfg
  {}

  /** The failing family: a REJ and a SABM in one call of `data_in`.  The call is safe just when the REJ
      asks for frame 0, or the window has room for the frames from N(R) to the end of the number circle, or divides
      their number. */
  lemma RejThenSabm(l: Link, nr: Mod8)
    requires Invariant(l) && l.state.Connected? && NrIsValid(l.q, nr) && nr != l.q.vs
    ensures Allowed(l, Receive([Frame(l.cfg.my, S(REJ, nr, false), []), Frame(l.cfg.my, U(U_SABM, true), [])]))
      <==> StartsInMemory(nr, l.cfg.slotCount)
  {
    RejIsTriggered(l, nr);
    TwoDispatches(l, Frame(l.cfg.my, S(REJ, nr, false), []), Frame(l.cfg.my, U(U_SABM, true), []));
    DispatchKeepsInside(l, Frame(l.cfg.my, S(REJ, nr, false), []));
    ResetLeavesReplayDue(HandleS(l, l.cfg.my, REJ, nr, false), Frame(l.cfg.my, U(U_SABM, true), []));
  }

  const EXAMPLE := Config(1, 4, 3, 3, 4, 8)

  /** Station 1 with three slots, connected by its peer. */
  lemma ExampleConnects() returns (l: Link)
    ensures Allowed(Initial(EXAMPLE, NoPayloads(3)), Receive([Frame(1, U(U_SABM, true), [])]))
    ensures l == Do(Initial(EXAMPLE, NoPayloads(3)), Receive([Frame(1, U(U_SABM, true), [])]))
    ensures l.cfg == EXAMPLE && l.state.Connected? && Fresh(l) && !l.pending && l.q.slots == NoPayloads(3)
  {
    OneDispatch(Initial(EXAMPLE, NoPayloads(3)), Frame(1, U(U_SABM, true), []));
    l := Do(Initial(EXAMPLE, NoPayloads(3)), Receive([Frame(1, U(U_SABM, true), [])]));
  }

  /** Which then sends two payloads of one octet. */
  lemma ExampleSends(l: Link, p: Payload)
    requires l.cfg == EXAMPLE && l.state.Connected? && !l.flags.remoteBusy && |p| == 1
    requires RingSized(l) && Outstanding(l.q) < 2
    ensures TransmitI(l, p).cfg == EXAMPLE && TransmitI(l, p).state.Connected? && !TransmitI(l, p).flags.remoteBusy
    ensures RingSized(TransmitI(l, p))
    ensures TransmitI(l, p).q.vs == (l.q.vs + 1) % MOD8 && TransmitI(l, p).q.va == l.q.va
  {}

  /** A state of a run that a call of `data_in` leaves the slot memory from: a window of three, two frames out, and a
      call that brings a REJ for frame 1 and a SABM. */
  lemma ExampleLeavesMemory() returns (ls: seq<Link>, calls: seq<Call>)
    ensures IsRun(ls, calls) && |ls| == 4 && ls[3].state.Connected? && ls[3].cfg == EXAMPLE
    ensures !Allowed(ls[3], Receive([Frame(1, S(REJ, 1, false), []), Frame(1, U(U_SABM, true), [])]))
  {
    var l1 := ExampleConnects();
    ExampleSends(l1, [7]);
    ExampleSends(TransmitI(l1, [7]), [8]);
    ls := [Initial(EXAMPLE, NoPayloads(3)), l1, TransmitI(l1, [7]), TransmitI(TransmitI(l1, [7]), [8])];
    calls := [Receive([Frame(1, U(U_SABM, true), [])]), Transmit([7]), Transmit([8])];
    ThreeCalls(ls, calls);
    RunsKeepInvariant(ls, calls, 3);
    RejThenSabm(ls[3], 1);
  }

  /** Without a reset any number of frames may come in one call. */
  lemma {:induction false} FramesKeepReplayOk(l: Link, fs: seq<Frame>)
    requires Invariant(l) && DispatchAll(l, fs).epoch == l.epoch
    ensures ReplayOk(DispatchAll(l, fs)) && Allowed(l, Receive(fs))
  {
    DispatchAllKeepsInside(l, fs);
    if fs != [] {
      var rest, f := fs[..|fs| - 1], fs[|fs| - 1];
      ReceiptsAdvance(l, rest);
      DispatchAllKeepsInside(l, rest);
      DispatchBookkeeping(DispatchAll(l, rest), f);
      FramesKeepReplayOk(l, rest);
      DispatchKeepsReplayOk(DispatchAll(l, rest), f);
    }
    SoundReplayIsDefined(DispatchAll(l, fs));
  }

  /** A call that completes one frame and so connects leaves the station fresh. */
  lemma OneFrameConnectsFresh(l: Link, f: Frame)
    requires Invariant(l) && Allowed(l, Receive([f])) && Enters(l, Do(l, Receive([f])))
    ensures Fresh(Do(l, Receive([f])))
  {
    OneDispatch(l, f);
    ConnectionsStartFresh(l, f);
    DispatchBookkeeping(l, f);
    DispatchTriggers(l, f);
  }
}

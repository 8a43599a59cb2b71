/** What a connected station puts on the line: every frame bears the true numbers, modulo 8, of what it says.
  */
module Emission {
  import opened Crc
  import opened Frame
  import opened Link
  import opened Runs
  import opened Replay

  predicate IsDatagram(code: Octet) { code == U_UI || code == U_TEST }

  /** The I-frame carries the payload whose index it stands for, no further back than a window. */
  predicate BearsPayload(s: Sent, accepted: seq<Payload>)
    requires s.Sent? && s.frame.control.I?
  {
    && s.frame.control.ns == s.ns % MOD8
    && s.ns < s.top <= |accepted| && s.top <= s.ns + 7
    && s.frame.info == accepted[s.ns]
  }

  /** N(R) is the number of payloads delivered when the frame was sent. */
  predicate BearsCount(s: Sent)
    requires s.Sent?
  {
    match s.frame.control
    case I(_, nr, _) => nr == s.nr % MOD8
    case S(_, nr, _) => nr == s.nr % MOD8
    case U(code, _) => IsDatagram(code)
  }

  /** The frame says what is so in this state. */
  predicate True(s: Sent, q: Sequence) {
    && s.Sent? && s.top == |q.accepted| && s.nr == |q.received| && BearsCount(s)
    && (s.frame.control.I? ==> BearsPayload(s, q.accepted))
  }

  /** What is sent on the way from one state to another is true in the second. */
  predicate Emits(out: seq<Sent>, out': seq<Sent>, q: Sequence) {
    out <= out' && forall k :: |out| <= k < |out'| ==> True(out'[k], q)
  }

  lemma TransmissionEmits(l: Link, p: Payload)
    requires Inside(l) && l.q.nextSlot < |l.q.slots|
    ensures Emits(l.log.out, Transmitted(l, p).log.out, Transmitted(l, p).q)
  {}

  lemma TransmitEmits(l: Link, p: Payload)
    requires Inside(l) && RingSized(l)
    ensures Emits(l.log.out, TransmitI(l, p).log.out, TransmitI(l, p).q)
  {
    if TransmitIError(l, p) == Ok {
      TransmissionEmits(l, p);
    }
  }

  lemma DatagramsEmit(l: Link, address: Octet, p: Payload)
    ensures Emits(l.log.out, TransmitUi(l, address, p).log.out, l.q) && TransmitUi(l, address, p).q == l.q
    ensures Emits(l.log.out, TransmitTest(l, address, p).log.out, l.q) && TransmitTest(l, address, p).q == l.q
  {}

  lemma T1Emits(l: Link)
    requires Inside(l) && l.state.Connected? && !RetriesExhausted(CountRetry(l))
    ensures Emits(l.log.out, T1Expired(l).log.out, l.q) && T1Expired(l).q == l.q
  {}

  lemma T2Emits(l: Link)
    requires Inside(l)
    ensures Emits(l.log.out, T2Expired(l).log.out, l.q) && T2Expired(l).q == l.q
  {}

  lemma BusyEmits(l: Link, busy: bool)
    requires Inside(l)
    ensures Emits(l.log.out, SetLocalBusy(l, busy).log.out, l.q) && SetLocalBusy(l, busy).q == l.q
  {}

  lemma RepeatIsTrue(s: Sent, l: Link, i: nat)
    requires i < |l.q.accepted| <= i + 7 && Inside(l) && Repeats(s, l, i)
    ensures True(s, l.q)
  {}

  lemma FlushEmits(l: Link)
    requires Inside(l) && ReplayOk(l)
    ensures ReplayDefined(l) && Emits(l.log.out, Flush(l).log.out, l.q) && Flush(l).q == l.q
  {
    if l.pending {
      ReplayIsFaithful(l);
      forall k: nat | k < Span(l) ensures True(Replayed(l)[k], l.q) {
        RepeatIsTrue(Replayed(l)[k], l, |l.q.accepted| - Span(l) + k);
      }
      ReplayIsAppended(l);
    }
  }

  lemma ReplayIsAppended(l: Link)
    requires l.pending && ReplayDefined(l) && forall k: nat :: k < |Replayed(l)| ==> True(Replayed(l)[k], l.q)
    ensures Emits(l.log.out, l.log.out + Replayed(l), l.q)
  {}

  lemma SupervisoryEmits(l: Link, address: Octet, kind: Supervisory, pf: bool)
    requires l.q.vr == |l.q.received| % MOD8
    ensures Emits(l.log.out, SendS(l, address, kind, pf).log.out, l.q)
  {}

  lemma AckEmits(l: Link, pf: bool)
    requires l.q.vr == |l.q.received| % MOD8
    ensures Emits(l.log.out, AckTaken(l, pf).log.out, l.q)
  {
    SupervisoryEmits(l, l.cfg.my, RNR, pf);
    SupervisoryEmits(l, l.cfg.my, RR, true);
  }

  lemma OutOfSequenceEmits(l: Link, pf: bool)
    requires l.q.vr == |l.q.received| % MOD8
    ensures Emits(l.log.out, OutOfSequence(l, pf).log.out, l.q)
  {}

  lemma TakenEmits(l: Link, ns: Mod8, pf: bool, info: Payload)
    requires l.q.vr == |l.q.received| % MOD8
    ensures Emits(l.log.out, ByNs(l, ns, pf, info).log.out, ByNs(l, ns, pf, info).q)
  {
    if ns == l.q.vr {
      AckEmits(Take(l, info), pf);
    } else {
      OutOfSequenceEmits(l, pf);
    }
  }

  lemma IEmits(l: Link, ns: Mod8, nr: Mod8, pf: bool, info: Payload)
    requires Inside(l) && NrIsValid(l.q, nr)
    ensures Emits(l.log.out, HandleI(l, ns, nr, pf, info).log.out, HandleI(l, ns, nr, pf, info).q)
    ensures HandleI(l, ns, nr, pf, info).state == l.state
  {
    TakenEmits(ProcessNr(l, nr), ns, pf, info);
  }

  lemma AnswerEmits(l: Link, address: Octet, kind: Supervisory, pf: bool)
    requires Inside(l)
    ensures Emits(l.log.out, BeforeNr(l, address, kind, pf).log.out, l.q)
  {}

  lemma NrEmits(l: Link, kind: Supervisory, nr: Mod8, final: bool)
    ensures AfterFinal(AfterNr(l, kind, nr), final).log.out == l.log.out
    ensures AfterFinal(AfterNr(l, kind, nr), final).state == l.state
    ensures AfterFinal(AfterNr(l, kind, nr), final).q == l.q.(va := nr)
  {}

  lemma AckedIsTrue(out: seq<Sent>, out': seq<Sent>, q: Sequence, nr: Mod8)
    requires Emits(out, out', q)
    ensures Emits(out, out', q.(va := nr))
  {
    forall k | |out| <= k < |out'| ensures True(out'[k], q.(va := nr)) {
      assert True(out'[k], q);
    }
  }

  lemma SEmits(l: Link, address: Octet, kind: Supervisory, nr: Mod8, pf: bool)
    requires Inside(l) && NrIsValid(l.q, nr)
    ensures Emits(l.log.out, HandleS(l, address, kind, nr, pf).log.out, HandleS(l, address, kind, nr, pf).q)
    ensures HandleS(l, address, kind, nr, pf).state == l.state
  {
    AnswerEmits(l, address, kind, pf);
    NrEmits(BeforeNr(l, address, kind, pf), kind, nr, !IsCommand(l, address) && pf);
    AckedIsTrue(l.log.out, BeforeNr(l, address, kind, pf).log.out, l.q, nr);
  }

  lemma UEmits(l: Link, address: Octet, code: Octet, pf: bool, info: Payload, emptied: bool)
    requires IsDatagram(code)
    ensures Emits(l.log.out, HandleU(l, address, code, pf, info, emptied).log.out, l.q)
    ensures HandleU(l, address, code, pf, info, emptied).q == l.q
    ensures HandleU(l, address, code, pf, info, emptied).state == l.state
  {}

  /** Whatever a connected station answers to a frame with a valid N(R), or to a datagram, is true. */
  lemma DispatchEmits(l: Link, f: Frame)
    requires Inside(l) && l.state.Connected?
    requires if f.control.U? then IsDatagram(f.control.code) else NrIsValid(l.q, f.control.nr)
    ensures Emits(l.log.out, Dispatch(l, f).log.out, Dispatch(l, f).q) && Dispatch(l, f).state.Connected?
  {
    match f.control
    case I(ns, nr, pf) => IEmits(l, ns, nr, pf, f.info);
    case S(kind, nr, pf) => SEmits(l, f.address, kind, nr, pf);
    case U(code, pf) => UEmits(l, f.address, code, pf, f.info, f.emptied);
  }
}

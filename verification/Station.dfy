/** A station: the context of the C library with its methods, each proved to be the function of module Link
    that it implements.  The transmit side of the context is a FrameWriter, the receive side a FrameReader.
  */
module Station {
  import opened Crc
  import opened Frame
  import opened Receiver
  import opened L = Link
  import Modular
  import Runs

  /** The octets of everything sent. */
  function Wire(crc: Driver, out: seq<Sent>): seq<Octet> {
    if out == [] then [] else Wire(crc, out[..|out| - 1]) + Octets(crc, out[|out| - 1])
  }

  function Octets(crc: Driver, s: Sent): seq<Octet> {
    match s
    case Sent(frame, _, _, _) => Encode(crc, frame)
    case TwoFlags => [FLAG, FLAG]
  }

  lemma WireOfOneMore(crc: Driver, out: seq<Sent>, s: Sent)
    ensures Wire(crc, out + [s]) == Wire(crc, out) + Octets(crc, s)
  {
    assert (out + [s])[..|out|] == out;
  }

  /** The modulo-8 difference of two sequence numbers, as the code writes it. */
  method Difference(n: Mod8, of: Mod8) returns (d: Mod8)
    ensures d == Ahead(n, of)
  {
    AheadByRemainder(n, of);
    d := (n + MOD8 - of) % MOD8;
  }

  /** Where a slot begins in the slot memory: the product, but built up slot by slot. */
  function Offset(slot: nat, capacity: nat): nat {
    if slot == 0 then 0 else Offset(slot - 1, capacity) + capacity
  }

  lemma {:induction false} OffsetIsProduct(slot: nat, capacity: nat)
    ensures Offset(slot, capacity) == slot * capacity
  {
    if slot > 0 {
      OffsetIsProduct(slot - 1, capacity);
      assert slot * capacity == (slot - 1) * capacity + capacity;
    }
  }

  /** Slots do not overlap. */
  lemma {:induction false} OffsetsApart(i: nat, j: nat, capacity: nat)
    requires i < j
    ensures Offset(i, capacity) + capacity <= Offset(j, capacity)
  {
    if i + 1 < j {
      OffsetsApart(i, j - 1, capacity);
    }
  }

  /** The payloads accepted and delivered since the last reset, and the callbacks made. */
  datatype Past = Past(accepted: seq<Payload>, received: seq<Payload>, log: Log)

  class Station {
    const cfg: Config
    const tx: FrameWriter
    const rx: FrameReader
    const slotData: array<Octet>
    const slotLens: array<nat>
    var state: State
    var peer: Octet
    var vs: Mod8
    var vr: Mod8
    var va: Mod8
    var nextSlot: nat
    var n2: nat
    var flags: Flags
    var retransmitPending: bool
    var retransmitFrom: Mod8
    var frmrCtrl: Octet
    var frmrFlags: Octet

    // Histories, with the content of the slots and the number of resets.
    ghost var past: Past
    ghost var slots: seq<Payload>
    ghost var epoch: nat

    /** The context as a value. */
    ghost function Snap(): Link
      reads this
    {
      Link(cfg, state, peer, Sequence(vs, vr, va, nextSlot, slots, past.accepted, past.received), n2, flags,
           retransmitPending, retransmitFrom, frmrCtrl, frmrFlags, past.log, epoch)
    }

    ghost predicate HoldsSlot(i: nat)
      requires i < |slots| && i < slotLens.Length
      reads this`slots, slotData, slotLens
    {
      var at := Offset(i, cfg.slotCapacity);
      && |slots[i]| == slotLens[i] <= cfg.slotCapacity && at + slotLens[i] <= slotData.Length
      && forall k :: 0 <= k < |slots[i]| ==> slots[i][k] == slotData[at + k]
    }

    /** From the first reset on the slot memory holds the payloads; before, its lengths mean nothing. */
    ghost predicate SlotsHeld()
      reads this`slots, this`epoch, slotData, slotLens
    {
      && slotLens.Length == |slots| == cfg.slotCount && slotData as object != slotLens as object
      && slotData.Length == Offset(cfg.slotCount, cfg.slotCapacity)
      && (epoch > 0 ==> forall i: nat :: i < |slots| ==> HoldsSlot(i))
    }

    ghost predicate Valid()
      reads this, tx, slotData, slotLens
    {
      && SlotsHeld() && tx.wire == Wire(tx.crc, past.log.out)
      && (state.Connected? || retransmitPending ==> epoch > 0)
      && (cfg.slotCount > 0 ==> nextSlot < cfg.slotCount)
    }

    /** The context cleared and pointed at the user's buffers. */
    constructor (cfg: Config, tx: FrameWriter, rx: FrameReader, slotData: array<Octet>, slotLens: array<nat>)
      requires slotLens.Length == cfg.slotCount && slotData.Length == Offset(cfg.slotCount, cfg.slotCapacity)
      requires slotData as object != slotLens as object && tx.wire == []
      ensures this.cfg == cfg && this.tx == tx && this.rx == rx
      ensures this.slotData == slotData && this.slotLens == slotLens
      ensures Valid() && Snap() == Initial(cfg, slots)
    {
      this.cfg, this.tx, this.rx, this.slotData, this.slotLens := cfg, tx, rx, slotData, slotLens;
      state, peer, vs, vr, va, nextSlot, n2, flags := Disconnected, 0, 0, 0, 0, 0, 0, QUIET;
      retransmitPending, retransmitFrom, frmrCtrl, frmrFlags := false, 0, 0, 0;
      past, slots, epoch := Past([], [], Log([], 0, [], [])), NoPayloads(cfg.slotCount), 0;
    }

    // -------------------------------------------------------------------------------------------
    // Callbacks and timers
    // -------------------------------------------------------------------------------------------

    method OnEvent(e: Event)
      requires Valid()
      modifies this`past
      ensures Valid() && Snap() == L.OnEvent(old(Snap()), e)
    {
      past := past.(log := past.log.(events := past.log.events + [e]));
    }

    method OnData(p: Payload)
      requires Valid()
      modifies this`past
      ensures Valid() && Snap() == L.OnData(old(Snap()), p)
    {
      past := past.(log := past.log.(delivered := past.log.delivered + [p]));
    }

    method T1Start()
      requires Valid()
      modifies this`flags
      ensures Valid() && Snap() == L.T1Start(old(Snap()))
    {
      flags := flags.(t1 := true);
    }

    method T1Stop()
      requires Valid()
      modifies this`flags
      ensures Valid() && Snap() == L.T1Stop(old(Snap()))
    {
      flags := flags.(t1 := false);
    }

    method T2Start()
      requires Valid()
      modifies this`flags
      ensures Valid() && Snap() == L.T2Start(old(Snap()))
    {
      flags := flags.(t2 := true);
    }

    method T2Stop()
      requires Valid()
      modifies this`flags
      ensures Valid() && Snap() == L.T2Stop(old(Snap()))
    {
      flags := flags.(t2 := false);
    }

    method Enter(to: State)
      requires Valid() && (to.Connected? ==> epoch > 0)
      modifies this`state
      ensures Valid() && Snap() == old(Snap()).(state := to)
    {
      state := to;
    }

    method SetState(to: State, e: Event)
      requires Valid() && (to.Connected? ==> epoch > 0)
      modifies this`state, this`past
      ensures Valid() && Snap() == L.SetState(old(Snap()), to, e)
    {
      if state != to || e == ConnReq {
        Enter(to);
        OnEvent(e);
      }
    }

    // -------------------------------------------------------------------------------------------
    // Senders of src/hdlc_frame.h
    // -------------------------------------------------------------------------------------------

    /** `frame_send`, with what the history keeps of the frame. */
    method FrameSend(address: Octet, ctrl: Octet, data: seq<Octet>, ghost ns: nat, ghost top: nat)
      requires Valid()
      modifies this`past, tx
      ensures Valid()
      ensures past == old(past).(log := old(past.log).(
        out := old(past.log.out) + [Sent(Frame(address, ControlOf(ctrl), data), ns, |old(past.received)|, top)],
        told := if ControlOf(ctrl).U? then old(past.log.told) else |old(past.received)|))
    {
      tx.FrameSend(address, ctrl, data);
      ghost var s := Sent(Frame(address, ControlOf(ctrl), data), ns, |past.received|, top);
      WireOfOneMore(tx.crc, past.log.out, s);
      past := past.(log := past.log.(out := past.log.out + [s],
                                     told := if ControlOf(ctrl).U? then past.log.told else |past.received|));
    }

    method SendU(address: Octet, code: Octet, pf: bool, info: seq<Octet>)
      requires Valid() && ValidControl(U(code, pf))
      modifies this`past, tx
      ensures Valid() && Snap() == L.SendU(old(Snap()), address, code, pf, info)
    {
      ControlRoundTrip(U(code, pf));
      FrameSend(address, UCtrl(code, pf), info, 0, |past.accepted|);
    }

    method SendS(address: Octet, kind: Supervisory, pf: bool)
      requires Valid()
      modifies this`past, tx
      ensures Valid() && Snap() == L.SendS(old(Snap()), address, kind, pf)
    {
      ControlRoundTrip(S(kind, vr, pf));
      FrameSend(address, SCtrl(kind, vr, pf), [], 0, |past.accepted|);
    }

    method SendI(data: Payload, ghost index: nat, ghost top: nat)
      requires Valid()
      modifies this`past, tx
      ensures Valid() && Snap() == L.SendI(old(Snap()), data, index, top)
    {
      IFieldsRoundTrip(vs, vr, false);
      FrameSend(peer, ICtrl(vs, vr, false), data, index, top);
    }

    method SendUa(pf: bool)
      requires Valid()
      modifies this`past, tx
      ensures Valid() && Snap() == L.SendUa(old(Snap()), pf)
    {
      SendU(cfg.my, U_UA, pf, []);
    }

    method SendDm(pf: bool)
      requires Valid()
      modifies this`past, tx
      ensures Valid() && Snap() == L.SendDm(old(Snap()), pf)
    {
      SendU(cfg.my, U_DM, pf, []);
    }

    method SendRr(pf: bool)
      requires Valid()
      modifies this`past, tx
      ensures Valid() && Snap() == L.SendRr(old(Snap()), pf)
    {
      SendS(peer, RR, pf);
    }

    method SendRrResp(pf: bool)
      requires Valid()
      modifies this`past, tx
      ensures Valid() && Snap() == L.SendRrResp(old(Snap()), pf)
    {
      SendS(cfg.my, RR, pf);
    }

    method SendRnr(pf: bool)
      requires Valid()
      modifies this`past, tx
      ensures Valid() && Snap() == L.SendRnr(old(Snap()), pf)
    {
      SendS(cfg.my, RNR, pf);
    }

    method SendRej(pf: bool)
      requires Valid()
      modifies this`past, tx
      ensures Valid() && Snap() == L.SendRej(old(Snap()), pf)
    {
      SendS(peer, REJ, pf);
    }

    method RetransmitFrmr()
      requires Valid()
      modifies this`past, tx
      ensures Valid() && Snap() == L.RetransmitFrmr(old(Snap()))
    {
      var status := (Bits3(vr) << 5) | (Bits3(vs) << 1);
      StatusOctet(vs, vr);
      SendU(cfg.my, U_FRMR, false, [frmrCtrl, status, frmrFlags]);
    }

    method NoteRejection(ctrl: Octet, flags: Octet)
      requires Valid()
      modifies this`frmrCtrl, this`frmrFlags
      ensures Valid() && Snap() == old(Snap()).(frmrCtrl := OctetOf(ControlOf(ctrl)), frmrFlags := flags)
    {
      OctetRoundTrip(ctrl);
      frmrCtrl := ctrl;
      frmrFlags := flags;
    }

    method SendFrmr(rejectedCtrl: Octet, flags: Octet)
      requires Valid()
      modifies this`past, this`frmrCtrl, this`frmrFlags, this`flags, tx
      ensures Valid() && Snap() == L.SendFrmr(old(Snap()), ControlOf(rejectedCtrl), flags)
    {
      NoteRejection(rejectedCtrl, flags);
      T2Stop();
      RetransmitFrmr();
      T1Start();
    }

    // -------------------------------------------------------------------------------------------
    // src/hdlc_dispatch.c
    // -------------------------------------------------------------------------------------------

    /** The memset of `reset_state`: every slot is empty. */
    method ClearSlotLens()
      requires SlotsHeld()
      modifies slotLens, this`slots
      ensures slots == NoPayloads(old(|slots|))
      ensures SlotsHeld() && forall i: nat :: i < |slots| ==> HoldsSlot(i)
    {
      for i := 0 to slotLens.Length
        invariant slots == old(slots) && forall k :: 0 <= k < i ==> slotLens[k] == 0
      {
        slotLens[i] := 0;
      }
      slots := NoPayloads(|slots|);
      forall i: nat | i < |slots| ensures HoldsSlot(i) {
        EmptySlotFits(i);
      }
    }

    lemma EmptySlotFits(i: nat)
      requires slotLens.Length == |slots| == cfg.slotCount
      requires slotData.Length == Offset(cfg.slotCount, cfg.slotCapacity)
      requires i < |slots| && slots[i] == [] && slotLens[i] == 0
      ensures HoldsSlot(i)
    {
      OffsetsApart(i, |slots|, cfg.slotCapacity);
    }

    method ResetNumbers()
      requires Valid()
      modifies this`vs, this`vr, this`va, this`nextSlot, this`past
      ensures Valid()
      ensures Snap() == old(Snap()).(q := Sequence(0, 0, 0, 0, slots, [], []))
    {
      vs := 0;
      vr := 0;
      va := 0;
      nextSlot := 0;
      past := past.(accepted := [], received := []);
    }

    method ResetSlots()
      requires Valid()
      modifies this`past, this`slots, this`epoch, slotLens
      ensures Valid() && slots == NoPayloads(old(|slots|)) && epoch == old(epoch) + 1
      ensures past == old(past.(log := past.log.(told := 0)))
    {
      ClearSlotLens();
      past := past.(log := past.log.(told := 0));
      epoch := epoch + 1;
    }

    method ResetFlags()
      requires Valid()
      modifies this`flags, this`n2
      ensures Valid()
      ensures Snap() == old(Snap()).(n2 := 0,
        flags := old(flags).(rej := false, remoteBusy := false, localBusy := false))
    {
      flags := flags.(rej := false, remoteBusy := false, localBusy := false);
      n2 := 0;
    }

    method ResetState()
      requires Valid()
      modifies this, slotLens
      ensures Valid() && Snap() == L.ResetState(old(Snap()))
    {
      ResetNumbers();
      ResetSlots();
      ResetFlags();
      T1Stop();
      T2Stop();
    }

    method FramesAcked(nr: Mod8)
      requires Valid()
      modifies this`va, this`n2, this`past
      ensures Valid() && Snap() == L.FramesAcked(old(Snap()), nr)
    {
      if nr == va {
        return;
      }
      var prevOut := Difference(vs, va);
      va := nr;
      n2 := 0;
      if prevOut >= cfg.slotCount {
        OnEvent(WindowOpen);
      }
    }

    method ProcessNr(nr: Mod8)
      requires Valid()
      modifies this`va, this`n2, this`past, this`flags
      ensures Valid() && Snap() == L.ProcessNr(old(Snap()), nr)
    {
      if vs == nr {
        FramesAcked(nr);
        T1Stop();
      } else if va != nr {
        FramesAcked(nr);
        T1Start();
      }
    }

    method TriggerRetransmit(from: Mod8)
      requires Valid() && epoch > 0
      modifies this`retransmitFrom, this`retransmitPending
      ensures Valid() && Snap() == L.TriggerRetransmit(old(Snap()), from)
    {
      if cfg.slotCount == 0 || vs == from {
        return;
      }
      retransmitFrom := from;
      retransmitPending := true;
    }

    method RejectNr(ctrl: Octet)
      requires Valid()
      modifies this`past, this`frmrCtrl, this`frmrFlags, this`flags, this`state, tx
      ensures Valid() && Snap() == L.RejectNr(old(Snap()), ControlOf(ctrl))
    {
      SendFrmr(ctrl, FRMR_Z);
      SetState(FrmrError, ProtocolError);
    }

    method ValidateNr(ctrl: Octet, nr: Mod8) returns (valid: bool)
      requires Valid()
      modifies this`past, this`frmrCtrl, this`frmrFlags, this`flags, this`state, tx
      ensures Valid() && valid == NrIsValid(old(Snap()).q, nr)
      ensures Snap() == if valid then old(Snap()) else L.RejectNr(old(Snap()), ControlOf(ctrl))
    {
      var diffNr := Difference(nr, va);
      var diffVs := Difference(vs, va);
      valid := diffNr <= diffVs;
      if !valid {
        RejectNr(ctrl);
      }
    }

    method Take(info: Payload)
      requires Valid()
      modifies this`vr, this`flags, this`past
      ensures Valid() && Snap() == L.Take(old(Snap()), info)
    {
      vr := (vr + 1) % MOD8;
      flags := flags.(rej := false);
      past := past.(received := past.received + [info]);
      assert Valid();
      OnData(info);
    }

    method HandleInSequence(pf: bool, info: Payload)
      requires Valid()
      modifies this`vr, this`flags, this`past, tx
      ensures Valid() && Snap() == L.InSequence(old(Snap()), pf, info)
    {
      Take(info);
      if pf {
        if flags.localBusy {
          SendRnr(true);
        } else {
          SendRrResp(true);
        }
        T2Stop();
      } else if !flags.t2 {
        if flags.localBusy {
          SendRnr(false);
        } else {
          T2Start();
        }
      }
    }

    method HandleOutOfSequence(pf: bool)
      requires Valid()
      modifies this`flags, this`past, tx
      ensures Valid() && Snap() == L.OutOfSequence(old(Snap()), pf)
    {
      if flags.rej {
        if pf {
          SendRrResp(true);
        }
      } else {
        flags := flags.(rej := true);
        SendRej(pf);
        T2Stop();
      }
    }

    method HandleIFrame(ctrl: Octet, info: Payload)
      requires Valid() && IsI(ctrl)
      modifies this, tx
      ensures Valid() && epoch == old(epoch)
      ensures Snap() == HandleI(old(Snap()), CtrlNs(ctrl), CtrlNr(ctrl), CtrlPf(ctrl), info)
    {
      var valid := ValidateNr(ctrl, CtrlNr(ctrl));
      if !valid {
        return;
      }
      ProcessNr(CtrlNr(ctrl));
      if CtrlNs(ctrl) == vr {
        HandleInSequence(CtrlPf(ctrl), info);
      } else {
        HandleOutOfSequence(CtrlPf(ctrl));
      }
    }

    method NoteBusy(kind: Supervisory)
      requires Valid()
      modifies this`flags, this`past
      ensures Valid() && Snap() == L.NoteBusy(old(Snap()), kind)
    {
      if kind == RR {
        var wasBusy := flags.remoteBusy;
        flags := flags.(remoteBusy := false);
        if wasBusy {
          OnEvent(PeerReady);
        }
      } else if kind == RNR {
        if !flags.remoteBusy {
          flags := flags.(remoteBusy := true);
          OnEvent(PeerBusy);
        }
      } else if kind == REJ {
        flags := flags.(remoteBusy := false);
      }
    }

    method AnswerPoll(poll: bool)
      requires Valid()
      modifies this`flags, this`past, tx
      ensures Valid() && Snap() == L.AnswerPoll(old(Snap()), poll)
    {
      if poll {
        SendRrResp(true);
        T2Stop();
      }
    }

    method RetransmitUnlessAcked(from: Mod8)
      requires Valid() && epoch > 0
      modifies this`retransmitFrom, this`retransmitPending
      ensures Valid() && Snap() == L.RetransmitUnlessAcked(old(Snap()), from)
    {
      if va != vs {
        TriggerRetransmit(from);
      }
    }

    method AfterNr(kind: Supervisory, nr: Mod8)
      requires Valid() && epoch > 0
      modifies this`va, this`n2, this`past, this`flags, this`retransmitFrom, this`retransmitPending
      ensures Valid() && Snap() == L.AfterNr(old(Snap()), kind, nr)
    {
      if kind == REJ {
        FramesAcked(nr);
        T1Stop();
        RetransmitUnlessAcked(nr);
      } else {
        ProcessNr(nr);
      }
    }

    method HandleSFrame(address: Octet, ctrl: Octet)
      requires Valid() && IsS(ctrl) && state.Connected?
      modifies this, tx
      ensures Valid() && epoch == old(epoch)
      ensures Snap() == HandleS(old(Snap()), address, CtrlS(ctrl), CtrlNr(ctrl), CtrlPf(ctrl))
    {
      var cmd := address == cfg.my;
      NoteBusy(CtrlS(ctrl));
      AnswerPoll(cmd && CtrlPf(ctrl));
      var valid := ValidateNr(ctrl, CtrlNr(ctrl));
      if !valid {
        return;
      }
      AfterNr(CtrlS(ctrl), CtrlNr(ctrl));
      if !cmd && CtrlPf(ctrl) {
        RetransmitUnlessAcked(va);
      }
    }

    /** A SABM is accepted: reset, UA, CONNECTED. */
    method AcceptSabm(pf: bool)
      requires Valid()
      modifies this, tx, slotLens
      ensures Valid()
      ensures Snap() == L.SetState(L.SendUa(L.ResetState(old(Snap())), pf), Connected, ConnReq)
    {
      ResetState();
      SendUa(pf);
      SetState(Connected, ConnReq);
    }

    method AcceptDisc(pf: bool)
      requires Valid()
      modifies this, tx, slotLens
      ensures Valid()
      ensures Snap() == L.SetState(L.SendUa(L.ResetState(old(Snap())), pf), Disconnected, PeerDisc)
    {
      ResetState();
      SendUa(pf);
      SetState(Disconnected, PeerDisc);
    }

    /** A DM or a FRMR: the link is reset and left. */
    method Leave(to: State, e: Event)
      requires Valid() && !to.Connected?
      modifies this, slotLens
      ensures Valid() && Snap() == L.SetState(L.ResetState(old(Snap())), to, e)
    {
      ResetState();
      SetState(to, e);
    }

    method HandleTest(address: Octet, pf: bool, info: Payload, present: bool)
      requires Valid() && (info != [] ==> present)
      modifies this`past, tx
      ensures Valid() && Snap() == HandleU(old(Snap()), address, U_TEST, pf, info, present && info == [])
    {
      if address == cfg.my {
        SendU(cfg.my, U_TEST, pf, info);
      } else if present {
        OnData(info);
      }
    }

    method HandleUFrame(address: Octet, ctrl: Octet, info: Payload, present: bool)
      requires Valid() && IsU(ctrl) && (info != [] ==> present)
      modifies this, tx, slotLens
      ensures Valid()
      ensures Snap() == HandleU(old(Snap()), address, ctrl & !PF_BIT, CtrlPf(ctrl), info, present && info == [])
    {
      var code, pf := ctrl & !PF_BIT, CtrlPf(ctrl);
      if code == U_SABM {
        AcceptSabm(pf);
      } else if code == U_DISC {
        AcceptDisc(pf);
      } else if code == U_DM {
        Leave(Disconnected, PeerReject);
      } else if code == U_FRMR {
        Leave(FrmrError, ProtocolError);
      } else if code == U_UI {
        OnData(info);
      } else if code == U_TEST {
        HandleTest(address, pf, info, present);
      } else if code == U_SNRM || code == U_SABME || code == U_SNRME || code == U_SARME {
        SendDm(pf);
      } else {
        SendFrmr(ctrl, FRMR_W);
      }
    }

    method InDisconnected(ctrl: Octet, info: Payload)
      requires Valid()
      modifies this, tx, slotLens
      ensures Valid() && Snap() == L.InDisconnected(old(Snap()), ControlOf(ctrl), info)
    {
      if !IsU(ctrl) {
        return;
      }
      var code, pf := ctrl & !PF_BIT, CtrlPf(ctrl);
      if code == U_SABM {
        AcceptSabm(pf);
      } else if code == U_DISC {
        SendUa(pf);
      } else if code == U_UI {
        OnData(info);
      } else if code == U_SNRM || code == U_SABME || code == U_SNRME || code == U_SARME {
        SendDm(pf);
      }
    }

    method InConnecting(ctrl: Octet)
      requires Valid()
      modifies this, tx, slotLens
      ensures Valid() && Snap() == L.InConnecting(old(Snap()), ControlOf(ctrl))
    {
      if !IsU(ctrl) {
        return;
      }
      var code, pf := ctrl & !PF_BIT, CtrlPf(ctrl);
      if code == U_SABM {
        SendUa(pf);
      } else if code == U_UA {
        if pf {
          T1Stop();
          ResetState();
          SetState(Connected, ConnAccepted);
        }
      } else if code == U_DM {
        if pf {
          T1Stop();
          SetState(Disconnected, PeerReject);
        }
      } else if code == U_DISC {
        SendDm(pf);
      }
    }

    method InConnected(address: Octet, ctrl: Octet, info: Payload, present: bool)
      requires Valid() && state.Connected? && (info != [] ==> present)
      modifies this, tx, slotLens
      ensures Valid()
      ensures Snap() == L.InConnected(old(Snap()), address, ControlOf(ctrl), info, present && info == [])
    {
      if IsI(ctrl) {
        HandleIFrame(ctrl, info);
      } else if IsS(ctrl) {
        HandleSFrame(address, ctrl);
      } else if IsU(ctrl) {
        HandleUFrame(address, ctrl, info, present);
      } else {
        LowBits(ctrl);
        assert false;
      }
    }

    method InDisconnecting(ctrl: Octet)
      requires Valid()
      modifies this`state, this`flags, this`past, tx
      ensures Valid() && Snap() == L.InDisconnecting(old(Snap()), ControlOf(ctrl))
    {
      if !IsU(ctrl) {
        if CtrlPf(ctrl) {
          SendDm(true);
        }
        return;
      }
      var code, pf := ctrl & !PF_BIT, CtrlPf(ctrl);
      if code == U_SABM || code == U_SABME {
        SendDm(pf);
      } else if code == U_DISC {
        SendUa(pf);
      } else if code == U_UA {
        if pf {
          T1Stop();
          SetState(Disconnected, DiscDone);
        }
      } else if code == U_DM {
        if pf {
          T1Stop();
          SetState(Disconnected, PeerReject);
        }
      }
    }

    method InFrmrError(ctrl: Octet)
      requires Valid()
      modifies this, tx, slotLens
      ensures Valid() && Snap() == L.InFrmrError(old(Snap()), ControlOf(ctrl))
    {
      if !IsU(ctrl) {
        return;
      }
      if ctrl & !PF_BIT == U_SABM {
        AcceptSabm(CtrlPf(ctrl));
      }
    }

    /** present says that the info pointer is not NULL. */
    method DispatchFrame(address: Octet, ctrl: Octet, info: Payload, present: bool)
      requires Valid() && (info != [] ==> present)
      modifies this, tx, slotLens
      ensures Valid() && Snap() == Dispatch(old(Snap()), Frame(address, ControlOf(ctrl), info, present && info == []))
    {
      match state
      case Disconnected => InDisconnected(ctrl, info);
      case Connecting => InConnecting(ctrl);
      case Connected => InConnected(address, ctrl, info, present);
      case Disconnecting => InDisconnecting(ctrl);
      case FrmrError => InFrmrError(ctrl);
    }

    // -------------------------------------------------------------------------------------------
    // src/hdlc_out.c
    // -------------------------------------------------------------------------------------------

    method TransmitUi(address: Octet, data: Payload) returns (r: Error)
      requires Valid()
      modifies this`past, tx
      ensures Valid() && r == TransmitUError(old(Snap()), data) && Snap() == L.TransmitUi(old(Snap()), address, data)
    {
      if |data| > cfg.maxInfo {
        return FrameSize;
      }
      SendU(address, U_UI, false, data);
      return Ok;
    }

    method TransmitTest(address: Octet, data: Payload) returns (r: Error)
      requires Valid()
      modifies this`past, tx
      ensures Valid() && r == TransmitUError(old(Snap()), data) && Snap() == L.TransmitTest(old(Snap()), address, data)
    {
      if |data| > cfg.maxInfo {
        return FrameSize;
      }
      SendU(address, U_TEST, true, data);
      return Ok;
    }

    /** The memcpy of `transmit_i`. */
    method CopyIn(at: nat, data: Payload)
      requires at + |data| <= slotData.Length
      modifies slotData
      ensures forall k :: 0 <= k < |data| ==> slotData[at + k] == data[k]
      ensures forall k :: 0 <= k < slotData.Length && !(at <= k < at + |data|) ==> slotData[k] == old(slotData[k])
    {
      for i := 0 to |data|
        invariant forall k :: 0 <= k < i ==> slotData[at + k] == data[k]
        invariant forall k :: 0 <= k < slotData.Length && !(at <= k < at + |data|) ==> slotData[k] == old(slotData[k])
      {
        slotData[at + i] := data[i];
      }
    }

    method SlotStart(slot: nat) returns (at: nat)
      ensures at == Offset(slot, cfg.slotCapacity)
    {
      at := slot * cfg.slotCapacity;
      OffsetIsProduct(slot, cfg.slotCapacity);
    }

    method StoreSlot(slot: nat, data: Payload)
      requires SlotsHeld() && epoch > 0 && slot < cfg.slotCount && |data| <= cfg.slotCapacity
      modifies this`slots, slotData, slotLens
      ensures SlotsHeld() && slots == old(slots)[slot := data]
    {
      var at := SlotStart(slot);
      OffsetsApart(slot, cfg.slotCount, cfg.slotCapacity);
      CopyIn(at, data);
      slotLens[slot] := |data|;
      slots := slots[slot := data];
      forall i: nat | i < |slots| ensures HoldsSlot(i) {
        assert old(HoldsSlot(i));
        if i < slot {
          OffsetsApart(i, slot, cfg.slotCapacity);
        } else if slot < i {
          OffsetsApart(slot, i, cfg.slotCapacity);
        }
      }
    }

    /** The payload goes to the next slot. */
    method PlaceI(data: Payload)
      requires Valid() && epoch > 0 && nextSlot < cfg.slotCount && |data| <= cfg.slotCapacity
      modifies this`nextSlot, this`slots, slotData, slotLens
      ensures Valid() && Snap() == Placed(old(Snap()), data)
    {
      var slot := nextSlot;
      nextSlot := (slot + 1) % cfg.slotCount;
      StoreSlot(slot, data);
    }

    method AdvanceVs(ghost data: Payload)
      requires Valid()
      modifies this`vs, this`past
      ensures Valid() && Snap() == Advanced(old(Snap()), data)
    {
      vs := (vs + 1) % MOD8;
      past := past.(accepted := past.accepted + [data]);
    }

    method AcceptI(data: Payload)
      requires Valid() && epoch > 0 && nextSlot < cfg.slotCount && |data| <= cfg.slotCapacity
      modifies this`nextSlot, this`slots, this`vs, this`past, this`flags, tx, slotData, slotLens
      ensures Valid() && Snap() == Transmitted(old(Snap()), data)
    {
      TransmittedInParts(Snap(), data);
      PlaceI(data);
      SendI(data, |past.accepted|, |past.accepted| + 1);
      AdvanceVs(data);
      T2Stop();
    }

    method TransmitI(data: Payload) returns (r: Error)
      requires Valid()
      modifies this, tx, slotData, slotLens
      ensures Valid() && RingSized(old(Snap()))
      ensures r == TransmitIError(old(Snap()), data) && Snap() == L.TransmitI(old(Snap()), data)
    {
      if !state.Connected? {
        return BadState;
      }
      if flags.remoteBusy {
        return PeerIsBusy;
      }
      if cfg.slotCount == 0 {
        return NoBuffer;
      }
      if |data| > cfg.maxInfo {
        return FrameSize;
      }
      if |data| > cfg.slotCapacity {
        return FrameSize;
      }
      var outstanding := Difference(vs, va);
      if outstanding >= cfg.slotCount {
        return WindowFull;
      }
      AcceptI(data);
      if outstanding == 0 {
        T1Start();
      }
      return Ok;
    }

    // -------------------------------------------------------------------------------------------
    // src/hdlc_in.c
    // -------------------------------------------------------------------------------------------

    /** A slot's content, read back for the replay. */
    method ReadSlot(slot: nat) returns (data: Payload)
      requires SlotsHeld() && epoch > 0 && slot < cfg.slotCount
      ensures data == slots[slot]
    {
      var at := SlotStart(slot);
      assert HoldsSlot(slot);
      data := slotData[at..at + slotLens[slot]];
    }

    method StepVs()
      requires Valid()
      modifies this`vs
      ensures Valid() && Snap() == Stepped(old(Snap()))
    {
      VsAfter(vs);
      vs := (vs + 1) % MOD8;
    }

    method StepSlot(slot: nat) returns (next: nat)
      requires slot < cfg.slotCount
      ensures next == SlotAfter(slot, cfg.slotCount)
    {
      Modular.Next(slot, cfg.slotCount);
      Modular.Small(slot, cfg.slotCount);
      next := (slot + 1) % cfg.slotCount;
    }

    /** One turn of the replay loop. */
    method ReplayOne(slot: nat, ghost l: Link, ghost first: nat, ghost base: nat, ghost k: nat)
      requires Valid() && epoch > 0 && slot < cfg.slotCount && first < |l.q.slots|
      requires Snap() == InReplay(l, first, base, k) && slot == SlotAt(first, |l.q.slots|, k)
      modifies this`vs, this`past, tx
      ensures Valid() && Snap() == InReplay(l, first, base, k + 1)
    {
      OneMoreTurn(l, first, base, k);
      var data := ReadSlot(slot);
      SendI(data, base + k, |past.accepted|);
      StepVs();
    }

    /** V(S) and the slot index are where k turns of the loop leave them. */
    ghost predicate AfterTurns(slot: nat, l: Link, first: nat, base: nat, k: nat)
      requires first < |l.q.slots|
      reads this, tx, slotData, slotLens
    {
      Valid() && Snap() == InReplay(l, first, base, k) && slot == SlotAt(first, |l.q.slots|, k)
    }

    method ReplayTurn(slot: nat, ghost l: Link, ghost first: nat, ghost base: nat, ghost k: nat) returns (next: nat)
      requires epoch > 0 && first < cfg.slotCount == |l.q.slots| && AfterTurns(slot, l, first, base, k)
      modifies this`vs, this`past, tx
      ensures AfterTurns(next, l, first, base, k + 1)
    {
      ReplayOne(slot, l, first, base, k);
      next := StepSlot(slot);
    }

    /** Begin the loop: the flag is cleared, and V(S) goes back. */
    method Rewind()
      requires Valid() && retransmitPending
      modifies this`retransmitPending, this`vs
      ensures Valid() && Snap() == old(Snap()).(pending := false, q := old(Snap()).q.(vs := retransmitFrom))
    {
      retransmitPending := false;
      vs := retransmitFrom;
    }

    method FirstSlot() returns (slot: nat)
      requires cfg.slotCount > 0
      ensures slot == L.FirstSlot(Snap())
    {
      var outstanding := Difference(vs, retransmitFrom);
      slot := CRemainder(nextSlot + cfg.slotCount - outstanding, cfg.slotCount) % 256;
    }

    /** The loop. */
    method ReplayFrom(first: nat, endVs: Mod8, ghost l: Link, ghost base: nat)
      requires Valid() && epoch > 0 && first < cfg.slotCount == |l.q.slots|
      requires Snap() == InReplay(l, first, base, 0)
      modifies this`vs, this`past, tx
      ensures Valid() && Snap() == InReplay(l, first, base, Ahead(endVs, l.retransmitFrom))
    {
      ghost var k := 0;
      var slot := first;
      LoopEnds(endVs, l.retransmitFrom, 0);
      while vs != endVs
        invariant k <= Ahead(endVs, l.retransmitFrom) && AfterTurns(slot, l, first, base, k)
        invariant vs == endVs <==> k == Ahead(endVs, l.retransmitFrom)
        decreases Ahead(endVs, l.retransmitFrom) - k
      {
        slot := ReplayTurn(slot, l, first, base, k);
        k := k + 1;
        LoopEnds(endVs, l.retransmitFrom, k);
      }
    }

    method RetransmitOutstanding()
      requires Valid() && retransmitPending && ReplayDefined(Snap())
      modifies this, tx
      ensures Valid() && Snap() == L.RetransmitOutstanding(old(Snap()))
    {
      ghost var l := Snap();
      var endVs := vs;
      var first := FirstSlot();
      Rewind();
      ReplayFrom(first, endVs, l, FirstIndex(l));
      T1Start();
      ReplayEnds(l, first);
    }

    /** The receive side belongs to this station, and its buffer is memory of its own. */
    ghost predicate Whole()
      reads this, tx, rx, slotData, slotLens
    {
      && Valid() && rx.Valid() && rx.my == cfg.my && rx.compute == tx.crc
      && rx.buffer.Length == cfg.rxCapacity && rx.buffer != slotData && rx.buffer as object != slotLens as object
    }

    ghost function Reads(): RxConfig
      reads this
    {
      rx.Settings(peer)
    }

    method HandleFlag()
      requires Whole()
      modifies this, tx, rx, slotLens
      ensures Whole() && rx.View() == IDLE && peer == old(peer)
      ensures Snap() == DispatchAll(old(Snap()), Receiver.HandleFlag(old(rx.View())))
    {
      ghost var l := Snap();
      var done, address, ctrl, info, present := rx.Completed();
      if done {
        OneFrame(l, Frame(address, ControlOf(ctrl), info, present && info == []));
        DispatchFrame(address, ctrl, info, present);
      }
      rx.Restart(Addr);
    }

    method RxByte(octet: Octet)
      requires Whole()
      modifies this, tx, rx, rx.buffer, slotLens
      ensures Whole() && peer == old(peer)
      ensures rx.View() == RxOctet(old(Reads()), old(rx.View()), octet).rx
      ensures Snap() == DispatchAll(old(Snap()), RxOctet(old(Reads()), old(rx.View()), octet).frames)
    {
      if octet == FLAG {
        HandleFlag();
      } else {
        rx.Take(octet, peer);
      }
    }

    /** The loop of `atc_hdlc_data_in`. */
    method RxBytes(data: seq<Octet>)
      requires Whole()
      modifies this, tx, rx, rx.buffer, slotLens
      ensures Whole() && peer == old(peer)
      ensures rx.View() == RxRun(old(Reads()), old(rx.View()), data).rx
      ensures Snap() == DispatchAll(old(Snap()), RxRun(old(Reads()), old(rx.View()), data).frames)
    {
      ghost var l, cfg0, v := Snap(), Reads(), rx.View();
      for i := 0 to |data|
        invariant Whole() && peer == old(peer)
        invariant rx.View() == RxRun(cfg0, v, data[..i]).rx
        invariant Snap() == DispatchAll(l, RxRun(cfg0, v, data[..i]).frames)
      {
        assert data[..i + 1] == data[..i] + [data[i]];
        RxRunSnoc(cfg0, v, data[..i], data[i]);
        OneMoreReading(l, RxRun(cfg0, v, data[..i]).frames, RxOctet(cfg0, rx.View(), data[i]).frames);
        RxByte(data[i]);
      }
      assert data[..|data|] == data;
    }

    /** `atc_hdlc_data_in`.  The guard is that of module Replay: it is met whenever the octets complete at most
        one frame, and whenever no frame among them resets the link. */
    method DataIn(data: seq<Octet>)
      requires Whole() && ReplayDefined(DispatchAll(Snap(), RxRun(Reads(), rx.View(), data).frames))
      modifies this, tx, rx, rx.buffer, slotLens
      ensures Whole() && rx.View() == RxRun(old(Reads()), old(rx.View()), data).rx
      ensures Snap() == L.DataIn(old(Snap()), RxRun(old(Reads()), old(rx.View()), data).frames)
    {
      RxBytes(data);
      if retransmitPending {
        RetransmitOutstanding();
      }
    }

    // -------------------------------------------------------------------------------------------
    // src/hdlc_station.c
    // -------------------------------------------------------------------------------------------

    method SetPeer(address: Octet)
      requires Valid()
      modifies this`peer
      ensures Valid() && Snap() == old(Snap()).(peer := address)
    {
      peer := address;
    }

    method LinkSetup(address: Octet) returns (r: Error)
      requires Valid()
      modifies this`peer, this`state, this`flags, this`past, tx
      ensures Valid() && Snap() == L.LinkSetup(old(Snap()), address)
      ensures r == if old(state).Disconnected? then Ok else BadState
    {
      if !state.Disconnected? {
        return BadState;
      }
      SetPeer(address);
      SendU(peer, U_SABM, true, []);
      T1Start();
      SetState(Connecting, SetupReq);
      return Ok;
    }

    method Disconnect() returns (r: Error)
      requires Valid()
      modifies this`state, this`flags, this`past, tx
      ensures Valid() && Snap() == L.Disconnect(old(Snap()))
      ensures r == if old(state).Connected? || old(state).FrmrError? then Ok else BadState
    {
      if !state.Connected? && !state.FrmrError? {
        return BadState;
      }
      SendU(peer, U_DISC, true, []);
      T1Start();
      SetState(Disconnecting, DiscReq);
      return Ok;
    }

    method LinkReset()
      requires Valid()
      modifies this, tx, slotLens
      ensures Valid() && Snap() == L.LinkReset(old(Snap()))
    {
      ResetState();
      SendU(peer, U_SABM, true, []);
      T1Start();
      SetState(Connecting, ResetDone);
    }

    method SetLocalBusy(busy: bool) returns (r: Error)
      requires Valid()
      modifies this`flags, this`past, tx
      ensures Valid() && Snap() == L.SetLocalBusy(old(Snap()), busy)
      ensures r == if old(state).Connected? then Ok else BadState
    {
      if !state.Connected? {
        return BadState;
      }
      if busy && !flags.localBusy {
        flags := flags.(localBusy := true);
      } else if !busy && flags.localBusy {
        flags := flags.(localBusy := false);
        SendRr(false);
      }
      return Ok;
    }

    method CountRetry()
      requires Valid()
      modifies this`flags, this`n2
      ensures Valid() && Snap() == L.CountRetry(old(Snap()))
    {
      flags := flags.(t1 := false);
      n2 := (n2 + 1) % 256;
    }

    method Retry()
      requires Valid()
      modifies this`flags, this`past, tx
      ensures Valid() && Snap() == L.Retry(old(Snap()))
    {
      match state
      case Connecting =>
        SendU(peer, U_SABM, true, []);
        T1Start();
      case Disconnecting =>
        SendU(peer, U_DISC, true, []);
        T1Start();
      case Connected =>
        if va != vs {
          if flags.localBusy {
            SendRnr(true);
          } else {
            SendRr(true);
          }
          T1Start();
        }
      case FrmrError =>
        RetransmitFrmr();
        T1Start();
      case Disconnected =>
    }

    method T1Expired()
      requires Valid()
      modifies this, tx, slotLens
      ensures Valid() && Snap() == L.T1Expired(old(Snap()))
    {
      CountRetry();
      if cfg.maxRetries > 0 && n2 > cfg.maxRetries {
        SetState(Disconnected, LinkFailure);
        ResetState();
        return;
      }
      Retry();
    }

    method T2Expired()
      requires Valid()
      modifies this`flags, this`past, tx
      ensures Valid() && Snap() == L.T2Expired(old(Snap()))
    {
      T2Stop();
      if flags.localBusy {
        SendRnr(false);
      } else {
        SendRr(false);
      }
    }

    method PutFlags()
      modifies tx`wire
      ensures tx.wire == old(tx.wire) + Octets(tx.crc, Sent.TwoFlags)
    {
      tx.PutTwoFlags();
    }

    /** The history grows by what has just gone out. */
    ghost method Record(s: Sent)
      requires SlotsHeld() && (state.Connected? || retransmitPending ==> epoch > 0)
      requires cfg.slotCount > 0 ==> nextSlot < cfg.slotCount
      requires tx.wire == Wire(tx.crc, past.log.out) + Octets(tx.crc, s)
      modifies this`past
      ensures Valid() && past == old(past).(log := old(past.log).(out := old(past.log.out) + [s]))
    {
      WireOfOneMore(tx.crc, past.log.out, s);
      past := past.(log := past.log.(out := past.log.out + [s]));
    }

    method TwoFlags()
      requires Valid()
      modifies this`past, tx
      ensures Valid() && past == old(past).(log := old(past.log).(out := old(past.log.out) + [Sent.TwoFlags]))
    {
      PutFlags();
      Record(Sent.TwoFlags);
    }

    method DropLink()
      requires Valid()
      modifies this, tx, slotLens
      ensures Valid() && Snap() == L.Abort(old(Snap()))
    {
      TwoFlags();
      ResetState();
      Enter(Disconnected);
    }

    method Abort()
      requires Whole()
      modifies this, tx, rx`state, slotLens
      ensures Whole() && rx.View() == HUNTING && Snap() == L.Abort(old(Snap()))
    {
      DropLink();
      rx.Abandon();
    }

    method GetState() returns (r: State)
      ensures r == Snap().state
    {
      r := state;
    }
  }

  // ---------------------------------------------------------------------------------------------
  // Initialisation
  // ---------------------------------------------------------------------------------------------

  /** The transmit window of the user, if there is one. */
  datatype Window =
    | NoWindow
    | Window(slots: array<Octet>, slotLens: array<nat>, slotCapacity: nat, slotCount: nat)

  /** The geometry that `atc_hdlc_init` insists on: the largest frame fits the receive buffer, the window has 1
      to 7 slots, and each takes the largest payload. */
  function InitStatus(abm: bool, maxInfo: nat, rxCapacity: nat, window: Window): Error {
    if !abm then BadMode
    else if rxCapacity < maxInfo + MIN_FRAME_LEN then BadBuf
    else if window.Window? && (window.slotCount < 1 || window.slotCount > 7) then BadParam
    else if window.Window? && window.slotCapacity < maxInfo then BadBuf
    else Ok
  }

  function ConfigOf(address: Octet, maxInfo: nat, maxRetries: nat, window: Window, rxCapacity: nat): Config {
    match window
    case NoWindow => Config(address, maxInfo, maxRetries, 0, 0, rxCapacity)
    case Window(_, _, slotCapacity, slotCount) =>
      Config(address, maxInfo, maxRetries, slotCount, slotCapacity, rxCapacity)
  }

  /** Init takes just the stations whose receive buffer holds their own largest frame and, if they have a window, whose
      slots hold their own largest payload and number 1 to 7. */
  lemma InitAcceptsExactly(abm: bool, address: Octet, maxInfo: nat, maxRetries: nat, window: Window, rxCapacity: nat)
    ensures var c := ConfigOf(address, maxInfo, maxRetries, window, rxCapacity);
      InitStatus(abm, maxInfo, rxCapacity, window) == Ok <==>
        && abm && c.maxInfo + 4 <= c.rxCapacity
        && (window.Window? ==> 1 <= c.slotCount <= 7 && c.maxInfo <= c.slotCapacity)
  {}

  /** The user's memory is as large as he says, and the three buffers are apart. */
  predicate Separate(rxBuffer: array<Octet>, window: Window) {
    window.Window? ==>
      && window.slotLens.Length == window.slotCount
      && window.slots.Length == window.slotCount * window.slotCapacity
      && window.slots as object != window.slotLens as object
      && rxBuffer != window.slots && rxBuffer as object != window.slotLens as object
  }

  method Init(abm: bool, address: Octet, maxInfo: nat, maxRetries: nat, rxBuffer: array<Octet>, window: Window,
              crc: Driver)
    returns (status: Error, station: Station?)
    requires Separate(rxBuffer, window)
    ensures status == InitStatus(abm, maxInfo, rxBuffer.Length, window)
    ensures station != null <==> status == Ok
    ensures station != null ==> fresh(station) && station.Whole() && station.rx.View() == HUNTING
    ensures station != null ==>
      station.Snap() == Initial(ConfigOf(address, maxInfo, maxRetries, window, rxBuffer.Length), station.slots)
    ensures station != null ==> Runs.Starts(station.Snap()) && station.rx.buffer == rxBuffer && station.tx.crc == crc
  {
    station := null;
    if !abm {
      return BadMode, null;
    }
    var minCap := maxInfo + MIN_FRAME_LEN;
    if rxBuffer.Length < minCap || rxBuffer.Length < MIN_FRAME_LEN {
      return BadBuf, null;
    }
    var slots, slotLens;
    match window {
      case Window(theSlots, theLens, slotCapacity, slotCount) =>
        if slotCount < 1 || slotCount > 7 {
          return BadParam, null;
        }
        if slotCapacity < maxInfo {
          return BadBuf, null;
        }
        slots, slotLens := theSlots, theLens;
        OffsetIsProduct(slotCount, slotCapacity);
      case NoWindow =>
        slots := new Octet[0];
        slotLens := new nat[0];
    }
    var tx := new FrameWriter(crc);
    var rx := new FrameReader(address, crc, rxBuffer);
    station := new Station(ConfigOf(address, maxInfo, maxRetries, window, rxBuffer.Length), tx, rx, slots, slotLens);
    status := Ok;
  }

  lemma OneFrame(l: Link, f: Frame)
    ensures DispatchAll(l, [f]) == Dispatch(l, f) && Dispatch(l, f).peer == l.peer
  {
    Runs.DispatchBookkeeping(l, f);
    Runs.OneDispatch(l, f);
  }

  lemma OneMoreReading(l: Link, fs: seq<Frame>, more: seq<Frame>)
    requires |more| <= 1
    ensures DispatchAll(l, fs + more) == DispatchAll(DispatchAll(l, fs), more)
  {
    if more == [] {
      assert fs + more == fs;
    } else {
      assert (fs + more)[..|fs|] == fs && more[..0] == [];
      assert DispatchAll(DispatchAll(l, fs), more[..0]) == DispatchAll(l, fs);
    }
  }

  function Placed(l: Link, p: Payload): Link
    requires l.q.nextSlot < |l.q.slots|
  {
    l.(q := l.q.(nextSlot := (l.q.nextSlot + 1) % |l.q.slots|, slots := l.q.slots[l.q.nextSlot := p]))
  }

  function Advanced(l: Link, p: Payload): Link {
    l.(q := l.q.(vs := (l.q.vs + 1) % MOD8, accepted := l.q.accepted + [p]))
  }

  lemma TransmittedInParts(l: Link, p: Payload)
    requires l.q.nextSlot < |l.q.slots|
    ensures Transmitted(l, p)
      == L.T2Stop(Advanced(L.SendI(Placed(l, p), p, |l.q.accepted|, |l.q.accepted| + 1), p))
  {}

  function NextVs(vs: Mod8): Mod8 { if vs == 7 then 0 else vs + 1 }

  function SlotAfter(slot: nat, w: nat): nat { if slot + 1 == w then 0 else slot + 1 }

  lemma VsAfter(vs: Mod8)
    ensures (vs + 1) % MOD8 == NextVs(vs)
  {}

  function VsAt(from: Mod8, k: nat): Mod8 { if k == 0 then from else NextVs(VsAt(from, k - 1)) }

  function SlotAt(first: nat, w: nat, k: nat): (slot: nat)
    requires first < w
    ensures slot < w
  {
    if k == 0 then first else SlotAfter(SlotAt(first, w, k - 1), w)
  }

  lemma {:induction false} VsAtIs(from: Mod8, k: nat)
    ensures VsAt(from, k) == (from + k) % MOD8
  {
    if k > 0 {
      VsAtIs(from, k - 1);
      VsAfter(VsAt(from, k - 1));
      Modular.NextOfRemainder(from + (k - 1), MOD8);
    }
  }

  lemma {:induction false} SlotAtIs(first: nat, w: nat, k: nat)
    requires first < w
    ensures SlotAt(first, w, k) == (first + k) % w
  {
    if k == 0 {
      Modular.Small(first, w);
    } else {
      SlotAtIs(first, w, k - 1);
      Modular.Next(first + (k - 1), w);
    }
  }

  function Stepped(l: Link): Link { l.(q := l.q.(vs := NextVs(l.q.vs))) }

  /** The context within the replay loop, after k turns. */
  function InReplay(l: Link, first: nat, base: nat, k: nat): (m: Link)
    requires first < |l.q.slots|
    ensures m.cfg == l.cfg && m.epoch == l.epoch && m.q == l.q.(vs := VsAt(l.retransmitFrom, k))
  {
    if k == 0 then l.(pending := false, q := l.q.(vs := l.retransmitFrom))
    else Stepped(L.SendI(InReplay(l, first, base, k - 1), l.q.slots[SlotAt(first, |l.q.slots|, k - 1)], base + k - 1,
                         |l.q.accepted|))
  }

  lemma OneMoreTurn(l: Link, first: nat, base: nat, k: nat)
    requires first < |l.q.slots|
    ensures InReplay(l, first, base, k + 1) == Stepped(
      L.SendI(InReplay(l, first, base, k), l.q.slots[SlotAt(first, |l.q.slots|, k)], base + k, |l.q.accepted|))
  {}

  /** The loop's guard: V(S) is back just after the last frame. */
  lemma LoopEnds(vs: Mod8, from: Mod8, k: nat)
    requires k <= Ahead(vs, from)
    ensures VsAt(from, k) == vs <==> k == Ahead(vs, from)
  {
    VsAtIs(from, k);
  }

  /** The loop does what the closed form says. */
  lemma {:induction false} InReplayIs(l: Link, first: nat, k: nat)
    requires l.pending && ReplayDefined(l) && first == L.FirstSlot(l) && k <= Span(l)
    ensures InReplay(l, first, FirstIndex(l), k) == ReplayState(l, k)
  {
    if k == 0 {
      assert l.log.out + Replayed(l)[..0] == l.log.out;
    } else {
      InReplayIs(l, first, k - 1);
      StateGrows(l, first, k - 1);
    }
  }

  function ReplayState(l: Link, k: nat): Link
    requires l.pending && ReplayDefined(l) && k <= Span(l)
  {
    l.(pending := false, q := l.q.(vs := VsAt(l.retransmitFrom, k)),
       log := l.log.(out := l.log.out + Replayed(l)[..k], told := if k > 0 then |l.q.received| else l.log.told))
  }

  lemma StateGrows(l: Link, first: nat, k: nat)
    requires l.pending && ReplayDefined(l) && first == L.FirstSlot(l) && k < Span(l)
    ensures ReplayState(l, k + 1) == Stepped(
      L.SendI(ReplayState(l, k), l.q.slots[SlotAt(first, |l.q.slots|, k)], FirstIndex(l) + k, |l.q.accepted|))
  {
    SlotAtIs(first, l.cfg.slotCount, k);
    VsAtIs(l.retransmitFrom, k);
    assert Replayed(l)[..k + 1] == Replayed(l)[..k] + [ReplayedFrame(l, k)];
    assert l.log.out + Replayed(l)[..k + 1] == l.log.out + Replayed(l)[..k] + [ReplayedFrame(l, k)];
  }

  lemma ReplayEnds(l: Link, first: nat)
    requires l.pending && ReplayDefined(l) && first == L.FirstSlot(l)
    ensures L.T1Start(InReplay(l, first, FirstIndex(l), Span(l))) == L.RetransmitOutstanding(l)
  {
    InReplayIs(l, first, Span(l));
    LoopEnds(l.q.vs, l.retransmitFrom, Span(l));
    assert Replayed(l)[..Span(l)] == Replayed(l);
  }

  lemma LowBits(ctrl: Octet)
    ensures IsI(ctrl) || IsS(ctrl) || IsU(ctrl)
  {}

  lemma StatusOctet(vs: Mod8, vr: Mod8)
    ensures (Bits3(vr) << 5) | (Bits3(vs) << 1) == ICtrl(vs, vr, false)
  {}
}

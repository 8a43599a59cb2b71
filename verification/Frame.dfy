/** Frames: the control octet, octet stuffing and the transmitter of src/hdlc_frame.h.
  */
module Frame {
  import opened Crc

  const FLAG: Octet := 0x7E
  const ESC: Octet := 0x7D
  const XOR_MASK: Octet := 0x20
  const PF_BIT: Octet := 0x10
  const BROADCAST: Octet := 0xFF

  const FCS_LEN: nat := 2
  const MIN_FRAME_LEN: nat := 4
  const MOD8: nat := 8

  /** A sequence number: the code keeps it in an octet, always below 8. */
  type Mod8 = n: nat | n < MOD8

  const U_SABM: Octet := 0x2F
  const U_DISC: Octet := 0x43
  const U_UA: Octet := 0x63
  const U_DM: Octet := 0x0F
  const U_FRMR: Octet := 0x87
  const U_UI: Octet := 0x03
  const U_TEST: Octet := 0xE3
  const U_SNRM: Octet := 0x83
  const U_SABME: Octet := 0x6F
  const U_SNRME: Octet := 0xCF
  const U_SARME: Octet := 0x4F

  // ---------------------------------------------------------------------------------------------
  // The control octet
  // ---------------------------------------------------------------------------------------------

  /** The two S bits; the library gives 3 no meaning of its own. */
  datatype Supervisory = RR | RNR | REJ | Unassigned

  datatype Control =
    | I(ns: Mod8, nr: Mod8, pf: bool)
    | S(kind: Supervisory, nr: Mod8, pf: bool)
    | U(code: Octet, pf: bool)

  predicate IsI(ctrl: Octet) { ctrl & 1 == 0 }

  predicate IsS(ctrl: Octet) { ctrl & 3 == 1 }

  predicate IsU(ctrl: Octet) { ctrl & 3 == 3 }

  function Low3(x: Octet): Mod8 {
    var b := x & 7;
    if b == 0 then 0 else if b == 1 then 1 else if b == 2 then 2 else if b == 3 then 3 else
    if b == 4 then 4 else if b == 5 then 5 else if b == 6 then 6 else 7
  }

  function Bits3(n: Mod8): Octet {
    if n == 0 then 0 else if n == 1 then 1 else if n == 2 then 2 else if n == 3 then 3 else
    if n == 4 then 4 else if n == 5 then 5 else if n == 6 then 6 else 7
  }

  predicate CtrlPf(ctrl: Octet) { (ctrl >> 4) & 1 == 1 }

  function CtrlNr(ctrl: Octet): Mod8 { Low3(ctrl >> 5) }

  function CtrlNs(ctrl: Octet): Mod8 { Low3(ctrl >> 1) }

  function CtrlS(ctrl: Octet): Supervisory {
    var s := (ctrl >> 2) & 3;
    if s == 0 then RR else if s == 1 then RNR else if s == 2 then REJ else Unassigned
  }

  function PfBit(pf: bool): Octet { if pf then PF_BIT else 0 }

  function ICtrl(ns: Mod8, nr: Mod8, pf: bool): Octet { (Bits3(ns) << 1) | PfBit(pf) | (Bits3(nr) << 5) }

  function SCtrl(kind: Supervisory, nr: Mod8, pf: bool): Octet {
    var s: Octet := match kind case RR => 0 case RNR => 4 case REJ => 8 case Unassigned => 12;
    1 | s | PfBit(pf) | (Bits3(nr) << 5)
  }

  function UCtrl(code: Octet, pf: bool): Octet { code | PfBit(pf) }

  /** What a control octet says. */
  function ControlOf(ctrl: Octet): Control {
    if IsI(ctrl) then I(CtrlNs(ctrl), CtrlNr(ctrl), CtrlPf(ctrl))
    else if IsS(ctrl) then S(CtrlS(ctrl), CtrlNr(ctrl), CtrlPf(ctrl))
    else U(ctrl & !PF_BIT, CtrlPf(ctrl))
  }

  function OctetOf(c: Control): Octet {
    match c
    case I(ns, nr, pf) => ICtrl(ns, nr, pf)
    case S(kind, nr, pf) => SCtrl(kind, nr, pf)
    case U(code, pf) => UCtrl(code, pf)
  }

  predicate ValidControl(c: Control) {
    c.U? ==> c.code & 3 == 3 && c.code & PF_BIT == 0
  }

  lemma IFieldsRoundTrip(ns: Mod8, nr: Mod8, pf: bool)
    ensures ControlOf(ICtrl(ns, nr, pf)) == I(ns, nr, pf)
  {}

  lemma SFieldsRoundTrip(kind: Supervisory, nr: Mod8, pf: bool)
    ensures ControlOf(SCtrl(kind, nr, pf)) == S(kind, nr, pf)
  {}

  lemma UFieldsRoundTrip(code: Octet, pf: bool)
    requires code & 3 == 3 && code & PF_BIT == 0
    ensures ControlOf(UCtrl(code, pf)) == U(code, pf)
  {}

  /** The macros that build a control octet and those that take it apart are inverses. */
  lemma ControlRoundTrip(c: Control)
    requires ValidControl(c)
    ensures ControlOf(OctetOf(c)) == c
  {
    match c
    case I(ns, nr, pf) => IFieldsRoundTrip(ns, nr, pf);
    case S(kind, nr, pf) => SFieldsRoundTrip(kind, nr, pf);
    case U(code, pf) => UFieldsRoundTrip(code, pf);
  }

  /** Every octet is the encoding of what it says: no control octet loses anything. */
  lemma OctetRoundTrip(ctrl: Octet)
    ensures ValidControl(ControlOf(ctrl)) && OctetOf(ControlOf(ctrl)) == ctrl
  {}

  function Bit(b: bool): nat { if b then 1 else 0 }

  lemma Bits3Value(n: Mod8)
    ensures Bits3(n) as nat == n
  {}

  lemma FieldsValue(low: Octet, p: Octet, nr: Octet, pf: bool)
    requires low < 16 && nr < 8 && p == PfBit(pf)
    ensures (low | p | (nr << 5)) as nat == low as nat + 16 * Bit(pf) + 32 * nr as nat
  {
    assert (low | p | (nr << 5)) == low + p + 32 * nr;
  }

  /** The octets that a peer sees: bit 1 first in the standard's count, N(S) in bits 2 to 4, P/F in bit 5, N(R) in bits
      6 to 8; RR, RNR and REJ are 1, 5 and 9. */
  lemma ControlOctets(ns: Mod8, nr: Mod8, pf: bool)
    ensures OctetOf(I(ns, nr, pf)) as nat == 2 * ns + 16 * Bit(pf) + 32 * nr
    ensures OctetOf(S(RR, nr, pf)) as nat == 1 + 16 * Bit(pf) + 32 * nr
    ensures OctetOf(S(RNR, nr, pf)) as nat == 5 + 16 * Bit(pf) + 32 * nr
    ensures OctetOf(S(REJ, nr, pf)) as nat == 9 + 16 * Bit(pf) + 32 * nr
  {
    Bits3Value(nr);
    Bits3Value(ns);
    FieldsValue(Bits3(ns) << 1, PfBit(pf), Bits3(nr), pf);
    FieldsValue(1, PfBit(pf), Bits3(nr), pf);
    FieldsValue(5, PfBit(pf), Bits3(nr), pf);
    FieldsValue(9, PfBit(pf), Bits3(nr), pf);
    assert (Bits3(ns) << 1) as nat == 2 * ns;
  }

  // ---------------------------------------------------------------------------------------------
  // Stuffing
  // ---------------------------------------------------------------------------------------------

  /** emptied marks a received frame that had an info field, of which nothing is left after the cut below. */
  datatype Frame = Frame(address: Octet, control: Control, info: seq<Octet>, emptied: bool := false)

  /** The receiver hands the length of the info field on in 16 bits. */
  function Cut(field: seq<Octet>): seq<Octet> { field[..|field| % 0x1_0000] }

  /** A frame as its receiver hands it on. */
  function Handed(f: Frame): Frame { f.(info := Cut(f.info), emptied := f.info != [] && Cut(f.info) == []) }

  /** Nothing is cut off exactly when the info field is shorter than 65536 octets. */
  lemma HandedWhole(f: Frame)
    requires !f.emptied
    ensures Handed(f) == f <==> |f.info| < 0x1_0000
    ensures Handed(f).info == f.info <==> |f.info| < 0x1_0000
  {
    if |f.info| < 0x1_0000 {
      assert Cut(f.info) == f.info;
    }
  }

  function Escaped(b: Octet): seq<Octet> {
    if b == FLAG || b == ESC then [ESC, b ^ XOR_MASK] else [b]
  }

  function Stuff(m: seq<Octet>): seq<Octet> {
    if m == [] then [] else Stuff(m[..|m| - 1]) + Escaped(m[|m| - 1])
  }

  /** A receiver's reading of stuffed octets; esc says that an escape is pending. */
  function Destuff(s: seq<Octet>, esc: bool): seq<Octet> {
    if s == [] then []
    else if s[0] == ESC then Destuff(s[1..], true)
    else [if esc then s[0] ^ XOR_MASK else s[0]] + Destuff(s[1..], false)
  }

  function FcsOctets(fcs: bv16): seq<Octet> { [FcsLow(fcs), FcsHigh(fcs)] }

  function Header(f: Frame): seq<Octet> { [f.address, OctetOf(f.control)] }

  /** Address to FCS, before stuffing. */
  function Body(crc: Driver, f: Frame): (body: seq<Octet>)
    ensures |body| == |f.info| + MIN_FRAME_LEN
  {
    var m := Header(f) + f.info;
    m + FcsOctets(Compute(crc, FCS_INIT, m))
  }

  /** A frame on the line. */
  function Encode(crc: Driver, f: Frame): seq<Octet> {
    [FLAG] + Stuff(Body(crc, f)) + [FLAG]
  }

  function EncodeAll(crc: Driver, fs: seq<Frame>): seq<Octet> {
    if fs == [] then [] else EncodeAll(crc, fs[..|fs| - 1]) + Encode(crc, fs[|fs| - 1])
  }

  lemma StuffSnoc(m: seq<Octet>, b: Octet)
    ensures Stuff(m + [b]) == Stuff(m) + Escaped(b)
  {
    assert (m + [b])[..|m|] == m;
  }

  lemma Assoc(a: seq<Octet>, b: seq<Octet>, c: seq<Octet>)
    ensures a + b + c == a + (b + c)
  {}

  lemma StuffOneMore(m: seq<Octet>, n: seq<Octet>, b: Octet)
    requires Stuff(m + n) == Stuff(m) + Stuff(n)
    ensures Stuff(m + (n + [b])) == Stuff(m) + Stuff(n + [b])
  {
    Assoc(m, n, [b]);
    StuffSnoc(m + n, b);
    StuffSnoc(n, b);
    Assoc(Stuff(m), Stuff(n), Escaped(b));
  }

  lemma {:induction false} StuffConcat(m: seq<Octet>, n: seq<Octet>)
    ensures Stuff(m + n) == Stuff(m) + Stuff(n)
  {
    if n == [] {
      assert m + n == m;
    } else {
      var k := |n| - 1;
      assert n == n[..k] + [n[k]];
      StuffConcat(m, n[..k]);
      StuffOneMore(m, n[..k], n[k]);
    }
  }

  lemma StuffTwo(a: Octet, b: Octet)
    ensures Stuff([a, b]) == Escaped(a) + Escaped(b)
  {
    StuffSnoc([], a);
    StuffSnoc([a], b);
    assert [] + [a] == [a] && [a] + [b] == [a, b];
  }

  lemma ComputeTwo(crc: Driver, reg: bv16, a: Octet, b: Octet)
    ensures Compute(crc, reg, [a, b]) == crc(crc(reg, a), b)
  {
    ComputeSnoc(crc, reg, [], a);
    ComputeSnoc(crc, reg, [a], b);
    assert [] + [a] == [a] && [a] + [b] == [a, b];
  }

  /** What a receiver may see between two flags of a sender: no flag, and every escape followed by 0x5D or 0x5E. */
  predicate Transparent(s: seq<Octet>) {
    && FLAG !in s
    && (forall i :: 0 <= i < |s| && s[i] == ESC ==> i + 1 < |s| && (s[i + 1] == 0x5D || s[i + 1] == 0x5E))
  }

  lemma {:induction false} StuffIsTransparent(m: seq<Octet>)
    ensures Transparent(Stuff(m))
  {
    if m != [] {
      StuffIsTransparent(m[..|m| - 1]);
      var head, last := Stuff(m[..|m| - 1]), Escaped(m[|m| - 1]);
      assert FLAG !in last;
      forall i | 0 <= i < |head + last| && (head + last)[i] == ESC
        ensures i + 1 < |head + last| && ((head + last)[i + 1] == 0x5D || (head + last)[i + 1] == 0x5E)
      {}
    }
  }

  lemma {:induction false} DestuffConcat(s: seq<Octet>, t: seq<Octet>, esc: bool)
    requires s != [] && s[|s| - 1] != ESC
    ensures Destuff(s + t, esc) == Destuff(s, esc) + Destuff(t, false)
  {
    assert (s + t)[1..] == s[1..] + t;
    if |s| > 1 {
      assert s[1..][|s| - 2] != ESC;
      DestuffConcat(s[1..], t, s[0] == ESC);
    } else {
      assert s[1..] + t == t;
    }
  }

  lemma UnmaskMasked(b: Octet)
    ensures (b ^ XOR_MASK) ^ XOR_MASK == b
    ensures b == FLAG || b == ESC ==> b ^ XOR_MASK != ESC && b ^ XOR_MASK != FLAG
  {}

  lemma DestuffOne(b: Octet, esc: bool)
    requires b != ESC
    ensures Destuff([b], esc) == [if esc then b ^ XOR_MASK else b]
  {
    assert [b][1..] == [];
  }

  lemma DestuffEscaped(b: Octet)
    ensures Destuff(Escaped(b), false) == [b]
    ensures Escaped(b)[|Escaped(b)| - 1] != ESC
  {
    UnmaskMasked(b);
    if b == FLAG || b == ESC {
      var x := b ^ XOR_MASK;
      assert Escaped(b)[1..] == [x];
      DestuffOne(x, true);
    } else {
      DestuffOne(b, false);
    }
  }

  /** Stuffing loses nothing. */
  lemma {:induction false} StuffRoundTrip(m: seq<Octet>)
    ensures Destuff(Stuff(m), false) == m
    ensures m != [] ==> Stuff(m) != [] && Stuff(m)[|Stuff(m)| - 1] != ESC
  {
    if m != [] {
      var k := |m| - 1;
      StuffRoundTrip(m[..k]);
      DestuffEscaped(m[k]);
      if k == 0 {
        assert Stuff(m) == Escaped(m[0]) && m == [m[0]];
      } else {
        DestuffConcat(Stuff(m[..k]), Escaped(m[k]), false);
        assert m == m[..k] + [m[k]];
      }
    }
  }

  function UiHeader(address: Octet): seq<Octet> { [address, UCtrl(U_UI, false)] }

  function Joined(chunks: seq<seq<Octet>>): seq<Octet> {
    if chunks == [] then [] else Joined(chunks[..|chunks| - 1]) + chunks[|chunks| - 1]
  }

  // ---------------------------------------------------------------------------------------------
  // The transmitter
  // ---------------------------------------------------------------------------------------------

  /** The transmit side of the context: the running FCS, and the octets handed to `on_send` so far. */
  class FrameWriter {
    const crc: Driver
    var txCrc: bv16
    ghost var wire: seq<Octet>

    constructor (crc: Driver)
      ensures this.crc == crc && wire == []
    {
      this.crc := crc;
      txCrc := 0;
      wire := [];
    }

    method PutRaw(b: Octet)
      modifies this`wire
      ensures wire == old(wire) + [b]
    {
      wire := wire + [b];
    }

    /** The abort sequence. */
    method PutTwoFlags()
      modifies this`wire
      ensures wire == old(wire) + [FLAG, FLAG]
    {
      PutRaw(FLAG);
      PutRaw(FLAG);
    }

    method PutEscaped(b: Octet)
      modifies this`wire
      ensures wire == old(wire) + Escaped(b)
    {
      if b == FLAG || b == ESC {
        PutRaw(ESC);
        PutRaw(b ^ XOR_MASK);
      } else {
        PutRaw(b);
      }
    }

    method Emit(b: Octet)
      modifies this
      ensures txCrc == crc(old(txCrc), b) && wire == old(wire) + Escaped(b)
    {
      txCrc := crc(txCrc, b);
      PutEscaped(b);
    }

    method EmitAll(data: seq<Octet>)
      modifies this
      ensures txCrc == Compute(crc, old(txCrc), data) && wire == old(wire) + Stuff(data)
    {
      for i := 0 to |data|
        invariant txCrc == Compute(crc, old(txCrc), data[..i]) && wire == old(wire) + Stuff(data[..i])
      {
        assert data[..i + 1] == data[..i] + [data[i]];
        ComputeSnoc(crc, old(txCrc), data[..i], data[i]);
        StuffSnoc(data[..i], data[i]);
        Emit(data[i]);
      }
      assert data[..|data|] == data;
    }

    method FrameBegin(address: Octet, ctrl: Octet)
      modifies this
      ensures txCrc == Compute(crc, FCS_INIT, [address, ctrl])
      ensures wire == old(wire) + [FLAG] + Stuff([address, ctrl])
    {
      txCrc := FCS_INIT;
      PutRaw(FLAG);
      ghost var w := wire;
      Emit(address);
      Emit(ctrl);
      ComputeTwo(crc, FCS_INIT, address, ctrl);
      StuffTwo(address, ctrl);
      Assoc(w, Escaped(address), Escaped(ctrl));
    }

    method FrameEnd()
      modifies this
      ensures txCrc == old(txCrc)
      ensures wire == old(wire) + Stuff(FcsOctets(txCrc)) + [FLAG]
    {
      PutEscaped(FcsLow(txCrc));
      PutEscaped(FcsHigh(txCrc));
      StuffTwo(FcsLow(txCrc), FcsHigh(txCrc));
      Assoc(old(wire), Escaped(FcsLow(txCrc)), Escaped(FcsHigh(txCrc)));
      PutRaw(FLAG);
    }

    // The streaming API of src/hdlc_out.c: begin, data in pieces, end.

    method TransmitUiStart(address: Octet)
      modifies this
      ensures txCrc == Compute(crc, FCS_INIT, UiHeader(address))
      ensures wire == old(wire) + [FLAG] + Stuff(UiHeader(address))
    {
      FrameBegin(address, UCtrl(U_UI, false));
    }

    method TransmitUiData(data: seq<Octet>)
      modifies this
      ensures txCrc == Compute(crc, old(txCrc), data) && wire == old(wire) + Stuff(data)
    {
      EmitAll(data);
    }

    method TransmitUiEnd()
      modifies this
      ensures wire == old(wire) + Stuff(FcsOctets(old(txCrc))) + [FLAG]
    {
      FrameEnd();
    }

    /** A stream in any number of pieces puts on the wire what FrameSend puts for the whole payload. */
    method StreamUi(address: Octet, chunks: seq<seq<Octet>>)
      modifies this
      ensures wire == old(wire) + Encode(crc, Frame(address, U(U_UI, false), Joined(chunks)))
    {
      TransmitUiStart(address);
      ghost var w, fcs := wire, txCrc;
      for i := 0 to |chunks|
        invariant txCrc == Compute(crc, fcs, Joined(chunks[..i])) && wire == w + Stuff(Joined(chunks[..i]))
      {
        assert chunks[..i + 1][..i] == chunks[..i];
        ComputeConcat(crc, fcs, Joined(chunks[..i]), chunks[i]);
        StuffConcat(Joined(chunks[..i]), chunks[i]);
        Assoc(w, Stuff(Joined(chunks[..i])), Stuff(chunks[i]));
        TransmitUiData(chunks[i]);
      }
      assert chunks[..|chunks|] == chunks;
      TransmitUiEnd();
      OneShotWire(crc, old(wire), Frame(address, U(U_UI, false), Joined(chunks)));
    }

    /** One whole frame. */
    method FrameSend(address: Octet, ctrl: Octet, data: seq<Octet>)
      modifies this
      ensures wire == old(wire) + Encode(crc, Frame(address, ControlOf(ctrl), data))
    {
      FrameBegin(address, ctrl);
      EmitAll(data);
      FrameEnd();
      OctetRoundTrip(ctrl);
      OneShotWire(crc, old(wire), Frame(address, ControlOf(ctrl), data));
    }
  }

  lemma EncodeParts(crc: Driver, f: Frame)
    ensures var fcs := Compute(crc, Compute(crc, FCS_INIT, Header(f)), f.info);
            Stuff(Body(crc, f)) == Stuff(Header(f)) + Stuff(f.info) + Stuff(FcsOctets(fcs))
  {
    ComputeConcat(crc, FCS_INIT, Header(f), f.info);
    StuffConcat(Header(f), f.info);
    StuffConcat(Header(f) + f.info, FcsOctets(Compute(crc, FCS_INIT, Header(f) + f.info)));
  }

  lemma FiveParts(w: seq<Octet>, a: seq<Octet>, b: seq<Octet>, c: seq<Octet>, body: seq<Octet>)
    requires body == a + b + c
    ensures w + [FLAG] + a + b + c + [FLAG] == w + ([FLAG] + body + [FLAG])
  {}

  lemma OneShotWire(crc: Driver, wire: seq<Octet>, f: Frame)
    ensures var fcs := Compute(crc, Compute(crc, FCS_INIT, Header(f)), f.info);
            wire + [FLAG] + Stuff(Header(f)) + Stuff(f.info) + Stuff(FcsOctets(fcs)) + [FLAG] == wire + Encode(crc, f)
  {
    var fcs := Compute(crc, Compute(crc, FCS_INIT, Header(f)), f.info);
    EncodeParts(crc, f);
    FiveParts(wire, Stuff(Header(f)), Stuff(f.info), Stuff(FcsOctets(fcs)), Stuff(Body(crc, f)));
  }

  // ---------------------------------------------------------------------------------------------
  // A frame as a conforming peer sends it
  // ---------------------------------------------------------------------------------------------

  /** Commands with P set, responses with F set, FRMR and UI without. */
  lemma UnnumberedOctets()
    ensures OctetOf(U(U_SABM, true)) == 0x3F && OctetOf(U(U_DISC, true)) == 0x53 && OctetOf(U(U_TEST, true)) == 0xF3
    ensures OctetOf(U(U_UA, true)) == 0x73 && OctetOf(U(U_DM, true)) == 0x1F
    ensures OctetOf(U(U_FRMR, false)) == 0x87 && OctetOf(U(U_UI, false)) == 0x03
    ensures OctetOf(U(U_SNRM, true)) == 0x93 && OctetOf(U(U_SABME, true)) == 0x7F
    ensures OctetOf(U(U_SNRME, true)) == 0xDF && OctetOf(U(U_SARME, true)) == 0x5F
  {}

  lemma SabmCheck()
    ensures Update(Update(FCS_INIT, 0x02), 0x3F) == 0x0A7C
  {}

  lemma SabmCheckOctets(fcs: bv16)
    requires fcs == 0x0A7C
    ensures FcsOctets(fcs) == [0x7C, 0x0A]
  {}

  /** The SABM with P set, to address 2. */
  lemma SabmOnTheLine()
    ensures Encode(Update, Frame(0x02, U(U_SABM, true), [])) == [0x7E, 0x02, 0x3F, 0x7C, 0x0A, 0x7E]
  {
    var f := Frame(0x02, U(U_SABM, true), []);
    UnnumberedOctets();
    assert Header(f) + f.info == [0x02, 0x3F];
    ComputeTwo(Update, FCS_INIT, 0x02, 0x3F);
    SabmCheck();
    SabmCheckOctets(Compute(Update, FCS_INIT, [0x02, 0x3F]));
    assert Body(Update, f) == [0x02, 0x3F] + [0x7C, 0x0A];
    StuffConcat([0x02, 0x3F], [0x7C, 0x0A]);
    StuffTwo(0x02, 0x3F);
    StuffTwo(0x7C, 0x0A);
  }
}

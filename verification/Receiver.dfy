/** The receiver of src/hdlc_in.c, octet by octet, against a declarative reading of an octet stream.
  */
module Receiver {
  import opened Crc
  import opened Frame

  /** What the receiver consults while it reads: both addresses, the buffer size and the checksum driver. */
  datatype RxConfig = RxConfig(my: Octet, peer: Octet, capacity: nat, crc: Driver)

  datatype RxState = Hunt | Addr | Data | Esc

  /** buf is the used part of the buffer; crc runs two octets behind it. */
  datatype Rx = Rx(state: RxState, buf: seq<Octet>, crc: bv16)

  datatype Reading = Reading(rx: Rx, frames: seq<Frame>)

  const HUNTING := Rx(Hunt, [], FCS_INIT)
  const IDLE := Rx(Addr, [], FCS_INIT)

  predicate Known(cfg: RxConfig, address: Octet) {
    address == cfg.my || address == cfg.peer || address == BROADCAST
  }

  function FrameOf(body: seq<Octet>): Frame
    requires |body| >= MIN_FRAME_LEN
  {
    Handed(Frame(body[0], ControlOf(body[1]), body[2..|body| - FCS_LEN]))
  }

  /** `handle_flag`: the frame a closing flag completes, if any. */
  function HandleFlag(rx: Rx): (fs: seq<Frame>)
    ensures |fs| <= 1
  {
    if rx.state.Hunt? || |rx.buf| < MIN_FRAME_LEN then []
    else
      var n := |rx.buf| - FCS_LEN;
      if rx.crc != FcsOf(rx.buf[n], rx.buf[n + 1]) then [] else [FrameOf(rx.buf)]
  }

  /** The part of `rx_byte` that stores an octet. */
  function Store(cfg: RxConfig, rx: Rx, b: Octet): Rx {
    if |rx.buf| >= cfg.capacity then HUNTING
    else
      var crc := if |rx.buf| >= FCS_LEN then cfg.crc(rx.crc, rx.buf[|rx.buf| - FCS_LEN]) else rx.crc;
      if rx.buf == [] && !Known(cfg, b) then HUNTING
      else Rx(if rx.buf == [] then Data else rx.state, rx.buf + [b], crc)
  }

  /** `rx_byte`. */
  function RxOctet(cfg: RxConfig, rx: Rx, b: Octet): Reading {
    if b == FLAG then Reading(IDLE, HandleFlag(rx))
    else if rx.state.Hunt? then Reading(rx, [])
    else if b == ESC then Reading(rx.(state := Esc), [])
    else if rx.state.Esc? then Reading(Store(cfg, rx.(state := Data), b ^ XOR_MASK), [])
    else Reading(Store(cfg, rx, b), [])
  }

  /** A stream of octets, and the frames it dispatches. */
  function RxRun(cfg: RxConfig, rx: Rx, s: seq<Octet>): Reading {
    if s == [] then Reading(rx, [])
    else
      var r := RxRun(cfg, rx, s[..|s| - 1]);
      var t := RxOctet(cfg, r.rx, s[|s| - 1]);
      Reading(t.rx, r.frames + t.frames)
  }

  lemma RxRunSnoc(cfg: RxConfig, rx: Rx, s: seq<Octet>, b: Octet)
    ensures var r := RxRun(cfg, rx, s); var t := RxOctet(cfg, r.rx, b);
            RxRun(cfg, rx, s + [b]) == Reading(t.rx, r.frames + t.frames)
  {
    assert (s + [b])[..|s|] == s;
  }

  /** How a stream is cut into calls of `data_in` does not matter. */
  lemma {:induction false} ChunkingIsInvisible(cfg: RxConfig, rx: Rx, s: seq<Octet>, t: seq<Octet>)
    ensures var a := RxRun(cfg, rx, s); var b := RxRun(cfg, a.rx, t);
            RxRun(cfg, rx, s + t) == Reading(b.rx, a.frames + b.frames)
  {
    if t == [] {
      assert s + t == s;
    } else {
      var k := |t| - 1;
      ChunkingIsInvisible(cfg, rx, s, t[..k]);
      RxRunSnoc(cfg, rx, s + t[..k], t[k]);
      assert s + t[..k] + [t[k]] == s + t;
      var a := RxRun(cfg, rx, s);
      var b := RxRun(cfg, a.rx, t[..k]);
      FramesAssociate(a.frames, b.frames, RxOctet(cfg, b.rx, t[k]).frames);
    }
  }

  lemma FramesAssociate(a: seq<Frame>, b: seq<Frame>, c: seq<Frame>)
    ensures a + b + c == a + (b + c)
  {}

  // ---------------------------------------------------------------------------------------------
  // The stream as the receiver should read it
  // ---------------------------------------------------------------------------------------------

  /** What follows the last flag. */
  function Tail(s: seq<Octet>): seq<Octet> {
    if s == [] || s[|s| - 1] == FLAG then [] else Tail(s[..|s| - 1]) + [s[|s| - 1]]
  }

  /** What precedes the first flag. */
  function Junk(s: seq<Octet>): seq<Octet> {
    if s == [] || s[0] == FLAG then [] else [s[0]] + Junk(s[1..])
  }

  /** What lies between each flag and the next. */
  function Segments(s: seq<Octet>): seq<seq<Octet>> {
    if s == [] then []
    else
      var p := s[..|s| - 1];
      if s[|s| - 1] == FLAG && FLAG in p then Segments(p) + [Tail(p)] else Segments(p)
  }

  function FlagTerminated(segs: seq<seq<Octet>>): seq<Octet> {
    if segs == [] then [] else FlagTerminated(segs[..|segs| - 1]) + segs[|segs| - 1] + [FLAG]
  }

  /** The frame a segment carries, if it is one: removing escapes leaves a body of acceptable length,
      for a known address, whose FCS matches. */
  function Accept(cfg: RxConfig, segment: seq<Octet>): seq<Frame> {
    var body := Destuff(segment, false);
    if MIN_FRAME_LEN <= |body| <= cfg.capacity && Known(cfg, body[0]) && FcsMatches(cfg.crc, body)
    then [FrameOf(body)] else []
  }

  function AcceptAll(cfg: RxConfig, segs: seq<seq<Octet>>): seq<Frame> {
    if segs == [] then [] else AcceptAll(cfg, segs[..|segs| - 1]) + Accept(cfg, segs[|segs| - 1])
  }

  lemma FlagInTail(s: seq<Octet>)
    requires s != []
    ensures FLAG in s <==> s[0] == FLAG || FLAG in s[1..]
  {}

  lemma {:induction false} JunkOfSnoc(s: seq<Octet>, b: Octet)
    ensures Junk(s + [b]) == if FLAG in s || b == FLAG then Junk(s) else Junk(s) + [b]
    ensures FLAG !in s ==> Junk(s) == s
  {
    if s == [] {
      assert ([] + [b])[1..] == [];
    } else {
      assert (s + [b])[1..] == s[1..] + [b];
      FlagInTail(s);
      if s[0] != FLAG {
        JunkOfSnoc(s[1..], b);
        assert s == [s[0]] + s[1..];
      }
    }
  }

  lemma TailHasNoFlag(s: seq<Octet>)
    ensures FLAG !in Tail(s)
  {}

  lemma JunkHasNoFlag(s: seq<Octet>)
    ensures FLAG !in Junk(s)
  {}

  lemma {:induction false} SegmentsHaveNoFlag(s: seq<Octet>)
    ensures forall g :: g in Segments(s) ==> FLAG !in g
  {
    if s != [] {
      SegmentsHaveNoFlag(s[..|s| - 1]);
      TailHasNoFlag(s[..|s| - 1]);
    }
  }

  lemma FlagTerminatedSnoc(segs: seq<seq<Octet>>, g: seq<Octet>)
    ensures FlagTerminated(segs + [g]) == FlagTerminated(segs) + g + [FLAG]
  {
    assert (segs + [g])[..|segs|] == segs;
  }

  lemma FlagEndsTail(junk: seq<Octet>, segs: seq<Octet>, tail: seq<Octet>)
    ensures junk + [FLAG] + segs + tail + [FLAG] == junk + [FLAG] + (segs + tail + [FLAG]) + []
  {}

  lemma OctetGrowsTail(junk: seq<Octet>, segs: seq<Octet>, tail: seq<Octet>, b: Octet)
    ensures junk + [FLAG] + segs + tail + [b] == junk + [FLAG] + segs + (tail + [b])
  {}

  lemma CutGrows(p: seq<Octet>, b: Octet)
    requires FLAG in p && p == Junk(p) + [FLAG] + FlagTerminated(Segments(p)) + Tail(p)
    ensures p + [b] == Junk(p + [b]) + [FLAG] + FlagTerminated(Segments(p + [b])) + Tail(p + [b])
  {
    assert (p + [b])[..|p|] == p;
    JunkOfSnoc(p, b);
    if b == FLAG {
      FlagTerminatedSnoc(Segments(p), Tail(p));
      FlagEndsTail(Junk(p), FlagTerminated(Segments(p)), Tail(p));
    } else {
      OctetGrowsTail(Junk(p), FlagTerminated(Segments(p)), Tail(p), b);
    }
  }

  lemma CutBegins(p: seq<Octet>)
    requires FLAG !in p
    ensures p + [FLAG] == Junk(p + [FLAG]) + [FLAG] + FlagTerminated(Segments(p + [FLAG])) + Tail(p + [FLAG])
  {
    assert (p + [FLAG])[..|p|] == p;
    JunkOfSnoc(p, FLAG);
    NoFlagNoSegments(p);
  }

  lemma {:induction false} CutJoins(s: seq<Octet>)
    requires FLAG in s
    ensures s == Junk(s) + [FLAG] + FlagTerminated(Segments(s)) + Tail(s)
  {
    var p, b := s[..|s| - 1], s[|s| - 1];
    assert s == p + [b];
    if FLAG in p {
      CutJoins(p);
      CutGrows(p, b);
    } else {
      CutBegins(p);
    }
  }

  /** The cut is the splitting of the stream at its flags: what lies between them holds none, and with them it is the
      stream again. */
  lemma CutAtFlags(s: seq<Octet>)
    ensures FLAG in s ==> s == Junk(s) + [FLAG] + FlagTerminated(Segments(s)) + Tail(s)
    ensures FLAG !in s ==> s == Junk(s) && Segments(s) == []
    ensures FLAG !in Junk(s) && FLAG !in Tail(s) && forall g :: g in Segments(s) ==> FLAG !in g
  {
    JunkHasNoFlag(s);
    TailHasNoFlag(s);
    SegmentsHaveNoFlag(s);
    if FLAG in s {
      CutJoins(s);
    } else {
      NoFlagNoSegments(s);
      JunkOfSnoc(s, FLAG);
    }
  }

  lemma {:induction false} NoFlagNoSegments(s: seq<Octet>)
    requires FLAG !in s
    ensures Segments(s) == []
  {
    if s != [] {
      NoFlagNoSegments(s[..|s| - 1]);
    }
  }

  // ---------------------------------------------------------------------------------------------
  // The receiver meets it
  // ---------------------------------------------------------------------------------------------

  predicate EndsInEscape(p: seq<Octet>, esc: bool) {
    if p == [] then esc else p[|p| - 1] == ESC
  }

  lemma {:induction false} DestuffSnoc(p: seq<Octet>, b: Octet, esc: bool)
    ensures Destuff(p + [b], esc) == Destuff(p, esc) +
      (if b == ESC then [] else [if EndsInEscape(p, esc) then b ^ XOR_MASK else b])
  {
    if p == [] {
      assert [] + [b] == [b] && [b][1..] == [];
    } else {
      assert (p + [b])[1..] == p[1..] + [b];
      DestuffSnoc(p[1..], b, p[0] == ESC);
    }
  }

  function CheckedPart(buf: seq<Octet>): seq<Octet> {
    if |buf| >= FCS_LEN then buf[..|buf| - FCS_LEN] else []
  }

  /** The buffer stays in bounds, and the running FCS is that of all but its last two octets. */
  predicate RxInvariant(cfg: RxConfig, rx: Rx) {
    && |rx.buf| <= cfg.capacity
    && rx.crc == Compute(cfg.crc, FCS_INIT, CheckedPart(rx.buf))
    && (rx.buf != [] ==> Known(cfg, rx.buf[0]))
    && (rx.state.Hunt? ==> rx == HUNTING)
    && (rx.state.Data? ==> rx.buf != [])
    && (rx.state.Addr? ==> rx == IDLE)
  }

  lemma StoreKeepsInvariant(cfg: RxConfig, rx: Rx, b: Octet)
    requires RxInvariant(cfg, rx) || (rx.state.Data? && RxInvariant(cfg, rx.(state := Esc)))
    requires !rx.state.Hunt? && !rx.state.Esc?
    ensures RxInvariant(cfg, Store(cfg, rx, b))
  {
    var buf := rx.buf + [b];
    if |rx.buf| >= FCS_LEN {
      var c := CheckedPart(rx.buf);
      assert CheckedPart(buf) == c + [rx.buf[|rx.buf| - FCS_LEN]];
      ComputeSnoc(cfg.crc, FCS_INIT, c, rx.buf[|rx.buf| - FCS_LEN]);
    } else {
      assert CheckedPart(buf) == [];
    }
  }

  /** The buffer invariant, kept by every octet. */
  lemma OctetKeepsInvariant(cfg: RxConfig, rx: Rx, b: Octet)
    requires RxInvariant(cfg, rx)
    ensures RxInvariant(cfg, RxOctet(cfg, rx, b).rx)
  {
    if b != FLAG && b != ESC && !rx.state.Hunt? {
      if rx.state.Esc? {
        StoreKeepsInvariant(cfg, rx.(state := Data), b ^ XOR_MASK);
      } else {
        StoreKeepsInvariant(cfg, rx, b);
      }
    }
  }

  /** The buffer invariant over every stream. */
  lemma {:induction false} RunKeepsInvariant(cfg: RxConfig, rx: Rx, s: seq<Octet>)
    requires RxInvariant(cfg, rx)
    ensures RxInvariant(cfg, RxRun(cfg, rx, s).rx)
  {
    if s != [] {
      RunKeepsInvariant(cfg, rx, s[..|s| - 1]);
      OctetKeepsInvariant(cfg, RxRun(cfg, rx, s[..|s| - 1]).rx, s[|s| - 1]);
    }
  }

  /** A body the receiver gives up on before its closing flag. */
  predicate Spoiled(cfg: RxConfig, body: seq<Octet>) {
    |body| > cfg.capacity || (body != [] && !Known(cfg, body[0]))
  }

  /** The receiver state after the octets p have followed a flag. */
  predicate Tracks(cfg: RxConfig, rx: Rx, p: seq<Octet>) {
    var body := Destuff(p, false);
    && RxInvariant(cfg, rx)
    && (rx.state.Hunt? <==> Spoiled(cfg, body))
    && (!rx.state.Hunt? ==> rx.buf == body && (rx.state.Esc? <==> EndsInEscape(p, false)))
  }

  lemma TrackingStep(cfg: RxConfig, rx: Rx, p: seq<Octet>, b: Octet)
    requires Tracks(cfg, rx, p) && b != FLAG
    ensures Tracks(cfg, RxOctet(cfg, rx, b).rx, p + [b]) && RxOctet(cfg, rx, b).frames == []
  {
    OctetKeepsInvariant(cfg, rx, b);
    DestuffSnoc(p, b, false);
  }

  lemma FlagCompletesSegment(cfg: RxConfig, rx: Rx, p: seq<Octet>)
    requires Tracks(cfg, rx, p)
    ensures RxOctet(cfg, rx, FLAG) == Reading(IDLE, Accept(cfg, p))
  {}

  lemma IdleTracksNothing(cfg: RxConfig)
    ensures Tracks(cfg, IDLE, [])
  {}

  /** For every stream, the receiver dispatches exactly the frames the cut stream carries. */
  lemma {:induction false} DecoderMeetsSpecification(cfg: RxConfig, s: seq<Octet>)
    ensures var r := RxRun(cfg, HUNTING, s);
            && r.frames == AcceptAll(cfg, Segments(s))
            && (if FLAG in s then Tracks(cfg, r.rx, Tail(s)) else r.rx == HUNTING)
  {
    if s != [] {
      var p, b := s[..|s| - 1], s[|s| - 1];
      DecoderMeetsSpecification(cfg, p);
      var r := RxRun(cfg, HUNTING, p);
      if b == FLAG {
        IdleTracksNothing(cfg);
        if FLAG in p {
          FlagCompletesSegment(cfg, r.rx, Tail(p));
          assert Segments(s)[..|Segments(p)|] == Segments(p);
        }
      } else if FLAG in p {
        TrackingStep(cfg, r.rx, Tail(p), b);
      }
    }
  }

  // ---------------------------------------------------------------------------------------------
  // What a transmitter sends is what a receiver dispatches
  // ---------------------------------------------------------------------------------------------

  lemma {:induction false} SegmentTracks(cfg: RxConfig, p: seq<Octet>)
    requires FLAG !in p
    ensures var r := RxRun(cfg, IDLE, p); r.frames == [] && Tracks(cfg, r.rx, p)
  {
    if p == [] {
      IdleTracksNothing(cfg);
    } else {
      var q, b := p[..|p| - 1], p[|p| - 1];
      assert p == q + [b];
      SegmentTracks(cfg, q);
      TrackingStep(cfg, RxRun(cfg, IDLE, q).rx, q, b);
      RxRunSnoc(cfg, IDLE, q, b);
    }
  }

  predicate Fits(cfg: RxConfig, f: Frame) {
    Known(cfg, f.address) && |f.info| + MIN_FRAME_LEN <= cfg.capacity
  }

  lemma BodyMatchesItsFcs(crc: Driver, f: Frame)
    ensures FcsMatches(crc, Body(crc, f))
  {
    var m := Header(f) + f.info;
    assert Body(crc, f)[..|m|] == m;
    FcsOctetsRoundTrip(Compute(crc, FCS_INIT, m));
  }

  lemma SentSegmentIsAccepted(cfg: RxConfig, f: Frame)
    requires ValidControl(f.control)
    ensures Accept(cfg, Stuff(Body(cfg.crc, f))) == if Fits(cfg, f) then [Handed(f)] else []
  {
    var body := Body(cfg.crc, f);
    StuffRoundTrip(body);
    BodyMatchesItsFcs(cfg.crc, f);
    ControlRoundTrip(f.control);
    assert body[2..|body| - FCS_LEN] == f.info;
  }

  lemma OpeningFlag(cfg: RxConfig, rx: Rx)
    ensures RxRun(cfg, rx, [FLAG]) == Reading(IDLE, HandleFlag(rx))
  {
    RxRunSnoc(cfg, rx, [], FLAG);
    assert [] + [FLAG] == [FLAG];
  }

  lemma FlagAndSegment(cfg: RxConfig, rx: Rx, p: seq<Octet>)
    requires FLAG !in p
    ensures RxRun(cfg, rx, [FLAG] + p) == Reading(RxRun(cfg, IDLE, p).rx, HandleFlag(rx))
  {
    OpeningFlag(cfg, rx);
    SegmentTracks(cfg, p);
    ChunkingIsInvisible(cfg, rx, [FLAG], p);
  }

  /** The octets of a frame, read from any receiver state: what was pending, then the frame, then idle. */
  lemma FrameRoundTrip(cfg: RxConfig, rx: Rx, f: Frame)
    requires ValidControl(f.control)
    ensures RxRun(cfg, rx, Encode(cfg.crc, f))
      == Reading(IDLE, HandleFlag(rx) + if Fits(cfg, f) then [Handed(f)] else [])
  {
    var p := Stuff(Body(cfg.crc, f));
    StuffIsTransparent(Body(cfg.crc, f));
    SentSegmentIsAccepted(cfg, f);
    SegmentTracks(cfg, p);
    FlagCompletesSegment(cfg, RxRun(cfg, IDLE, p).rx, p);
    FlagAndSegment(cfg, rx, p);
    RxRunSnoc(cfg, rx, [FLAG] + p, FLAG);
  }

  /** A frame that fits arrives whole if and only if its info field is shorter than 65536 octets. */
  lemma FrameArrivesWhole(cfg: RxConfig, rx: Rx, f: Frame)
    requires ValidControl(f.control) && Fits(cfg, f) && !f.emptied && HandleFlag(rx) == []
    ensures RxRun(cfg, rx, Encode(cfg.crc, f)).frames == [f] <==> |f.info| < 0x1_0000
  {
    FrameRoundTrip(cfg, rx, f);
    HandedWhole(f);
    assert [] + [Handed(f)] == [Handed(f)];
    assert [Handed(f)][0] == Handed(f) && [f][0] == f;
  }

  /** What goes wrong beyond: of 65536 octets nothing is handed on. */
  lemma LongFrameArrivesEmpty(cfg: RxConfig, rx: Rx, f: Frame)
    requires ValidControl(f.control) && Fits(cfg, f) && |f.info| == 0x1_0000 && HandleFlag(rx) == []
    ensures RxRun(cfg, rx, Encode(cfg.crc, f)).frames == [f.(info := [], emptied := true)]
  {
    FrameRoundTrip(cfg, rx, f);
    assert Cut(f.info) == [];
  }

  function Fitting(cfg: RxConfig, fs: seq<Frame>): seq<Frame> {
    if fs == [] then []
    else Fitting(cfg, fs[..|fs| - 1]) + if Fits(cfg, fs[|fs| - 1]) then [Handed(fs[|fs| - 1])] else []
  }

  /** Frames sent back to back arrive in order, each once; those for other addresses are skipped. */
  lemma {:induction false} FramesRoundTrip(cfg: RxConfig, fs: seq<Frame>)
    requires forall f :: f in fs ==> ValidControl(f.control)
    ensures RxRun(cfg, IDLE, EncodeAll(cfg.crc, fs)) == Reading(IDLE, Fitting(cfg, fs))
  {
    if fs != [] {
      var k := |fs| - 1;
      FramesRoundTrip(cfg, fs[..k]);
      FrameRoundTrip(cfg, IDLE, fs[k]);
      ChunkingIsInvisible(cfg, IDLE, EncodeAll(cfg.crc, fs[..k]), Encode(cfg.crc, fs[k]));
    }
  }

  /** Two bodies of one length differ, within sixteen consecutive bits or in an odd number of bits. */
  ghost predicate Damaged(sent: seq<Octet>, got: seq<Octet>) {
    && |sent| == |got| && sent != got
    && (|| (exists k: nat :: DiffersWithin(Bits(sent), Bits(got), k))
        || Distance(Bits(sent), Bits(got)) % 2 == 1)
  }

  predicate DiffersWithin(a: seq<bool>, b: seq<bool>, k: nat)
    requires |a| == |b|
  {
    forall i :: 0 <= i < |a| && !(k <= i < k + 16) ==> a[i] == b[i]
  }

  lemma DamageIsDetected(sent: seq<Octet>, got: seq<Octet>)
    requires |sent| >= 2 && Damaged(sent, got) && FcsMatches(Update, sent)
    ensures !FcsMatches(Update, got)
  {
    if Distance(Bits(sent), Bits(got)) % 2 == 1 {
      OddErrorsAreDetected(sent, got);
    } else {
      var k: nat :| DiffersWithin(Bits(sent), Bits(got), k);
      BurstsAreDetected(sent, got, k);
    }
  }

  /** A frame damaged on the line is dropped: nothing is dispatched, and the receiver is ready for the next. */
  lemma DamagedFrameIsDropped(cfg: RxConfig, f: Frame, segment: seq<Octet>)
    requires cfg.crc == Update && FLAG !in segment
    requires Damaged(Body(cfg.crc, f), Destuff(segment, false))
    ensures RxRun(cfg, IDLE, segment + [FLAG]) == Reading(IDLE, [])
  {
    BodyMatchesItsFcs(cfg.crc, f);
    DamageIsDetected(Body(cfg.crc, f), Destuff(segment, false));
    SegmentTracks(cfg, segment);
    FlagCompletesSegment(cfg, RxRun(cfg, IDLE, segment).rx, segment);
    RxRunSnoc(cfg, IDLE, segment, FLAG);
  }

  // ---------------------------------------------------------------------------------------------
  // The receive side of the context
  // ---------------------------------------------------------------------------------------------

  /** The length of the info field, cut to 16 bits, applied to the buffer. */
  lemma CutOfBuffer(buf: seq<Octet>, info: seq<Octet>, dlen: nat)
    requires 2 <= dlen == |buf| - FCS_LEN && info == buf[2..2 + (dlen - 2) % 0x1_0000]
    ensures Cut(buf[2..|buf| - FCS_LEN]) == info && (buf[2..|buf| - FCS_LEN] != [] <==> dlen > 2)
  {}

  /** The receive buffer with the state, write index and running FCS that the C context keeps beside it. */
  class FrameReader {
    const my: Octet
    const compute: Driver
    const buffer: array<Octet>
    var state: RxState
    var index: nat
    var crc: bv16

    ghost predicate Valid()
      reads this
    {
      index <= buffer.Length
    }

    /** While hunting, index and crc mean nothing. */
    ghost function View(): Rx
      requires Valid()
      reads this, buffer
    {
      if state.Hunt? then HUNTING else Rx(state, buffer[..index], crc)
    }

    ghost function Settings(peer: Octet): RxConfig { RxConfig(my, peer, buffer.Length, compute) }

    constructor (my: Octet, compute: Driver, buffer: array<Octet>)
      ensures Valid() && View() == HUNTING
      ensures this.my == my && this.compute == compute && this.buffer == buffer
    {
      this.my, this.compute, this.buffer := my, compute, buffer;
      state, index, crc := Hunt, 0, FCS_INIT;
    }

    method Restart(state: RxState)
      requires state.Hunt? || state.Addr?
      modifies this
      ensures Valid() && View() == if state.Hunt? then HUNTING else IDLE
    {
      this.state, index, crc := state, 0, FCS_INIT;
    }

    /** `atc_hdlc_abort` changes nothing but the state. */
    method Abandon()
      requires Valid()
      modifies this`state
      ensures Valid() && View() == HUNTING
    {
      state := Hunt;
    }

    /** The checks of `handle_flag`, and the frame they let through. */
    method Completed() returns (done: bool, address: Octet, ctrl: Octet, info: seq<Octet>, present: bool)
      requires Valid()
      ensures HandleFlag(View()) == if done then [Frame(address, ControlOf(ctrl), info, present && info == [])] else []
      ensures info != [] ==> present
    {
      done, address, ctrl, info, present := false, 0, 0, [], false;
      if state.Hunt? || index < MIN_FRAME_LEN {
        return;
      }
      var dlen := index - FCS_LEN;
      if crc == FcsOf(buffer[dlen], buffer[dlen + 1]) {
        done, address, ctrl := true, buffer[0], buffer[1];
        if dlen > 2 {
          var infoLen := (dlen - 2) % 0x1_0000;
          present, info := true, buffer[2..2 + infoLen];
        }
        CutOfBuffer(buffer[..index], info, dlen);
      }
    }

    /** The end of `rx_byte`: the buffer takes the octet, and the FCS the one that is two places behind. */
    method Put(b: Octet, peer: Octet)
      requires Valid() && !state.Hunt?
      modifies this, buffer
      ensures Valid() && View() == Store(Settings(peer), old(View()), b)
    {
      if index >= buffer.Length {
        Restart(Hunt);
        return;
      }
      buffer[index] := b;
      if index >= FCS_LEN {
        crc := compute(crc, buffer[index - FCS_LEN]);
      }
      index := index + 1;
      assert buffer[..index] == old(buffer[..index]) + [b];
      if index == 1 {
        if b != my && b != peer && b != BROADCAST {
          Restart(Hunt);
          return;
        }
        state := Data;
      }
    }

    /** `rx_byte` for an octet that is no flag. */
    method Take(octet: Octet, peer: Octet)
      requires Valid() && octet != FLAG
      modifies this, buffer
      ensures Valid() && View() == RxOctet(Settings(peer), old(View()), octet).rx
    {
      if state.Hunt? {
        return;
      }
      if octet == ESC {
        state := Esc;
        return;
      }
      if state.Esc? {
        state := Data;
        Put(octet ^ XOR_MASK, peer);
      } else {
        Put(octet, peer);
      }
    }
  }
}

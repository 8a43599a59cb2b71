/** The octets between two stations: a system in which each call of `data_in` takes any number of them refines the
    two-station system.
  */
module Line {
  import opened Crc
  import opened Frame
  import opened Receiver
  import opened Link
  import Runs
  import opened TwoStations
  import S = Station

  /** The receiver of a station. */
  function RxOf(c: Config, peer: Octet, crc: Driver): RxConfig { RxConfig(c.my, peer, c.rxCapacity, crc) }

  /** A frame that its sender built from a proper control field. */
  predicate Sound(s: Sent) { s.Sent? && ValidControl(s.frame.control) }

  predicate AllSound(ch: seq<Sent>) { forall k :: 0 <= k < |ch| ==> Sound(ch[k]) }

  // ---------------------------------------------------------------------------------------------
  // A channel as octets
  // ---------------------------------------------------------------------------------------------

  lemma {:induction false} WireInParts(crc: Driver, c: seq<Sent>, d: seq<Sent>)
    ensures S.Wire(crc, c + d) == S.Wire(crc, c) + S.Wire(crc, d)
  {
    if d == [] {
      assert c + d == c;
    } else {
      var e, s := d[..|d| - 1], d[|d| - 1];
      assert c + d == (c + e) + [s] && d == e + [s];
      WireInParts(crc, c, e);
      S.WireOfOneMore(crc, c + e, s);
      S.WireOfOneMore(crc, e, s);
      Assoc(S.Wire(crc, c), S.Wire(crc, e), S.Octets(crc, s));
    }
  }

  lemma WireOfOne(crc: Driver, s: Sent)
    ensures S.Wire(crc, [s]) == S.Octets(crc, s)
  {
    S.WireOfOneMore(crc, [], s);
    assert [] + [s] == [s];
  }

  lemma WireFromFront(crc: Driver, ch: seq<Sent>)
    requires ch != []
    ensures S.Wire(crc, ch) == S.Octets(crc, ch[0]) + S.Wire(crc, ch[1..])
  {
    assert ch == [ch[0]] + ch[1..];
    WireInParts(crc, [ch[0]], ch[1..]);
    WireOfOne(crc, ch[0]);
  }

  /** How many frames of the channel are complete after the first i octets. */
  function Complete(crc: Driver, ch: seq<Sent>, i: nat): (n: nat)
    ensures n <= |ch|
  {
    if ch == [] || i < |S.Octets(crc, ch[0])| then 0
    else 1 + Complete(crc, ch[1..], i - |S.Octets(crc, ch[0])|)
  }

  /** How many octets these are of the next frame. */
  function Begun(crc: Driver, ch: seq<Sent>, i: nat): nat {
    if ch == [] || i < |S.Octets(crc, ch[0])| then i
    else Begun(crc, ch[1..], i - |S.Octets(crc, ch[0])|)
  }

  /** So many octets are a part of the first frame only. */
  predicate IsPart(crc: Driver, ch: seq<Sent>, i: nat) {
    if ch == [] then i == 0 else i < |S.Octets(crc, ch[0])|
  }

  // ---------------------------------------------------------------------------------------------
  // What the octets dispatch
  // ---------------------------------------------------------------------------------------------

  /** The receive side of a station, and how many octets of the first frame on its way it has been given. */
  datatype Half = Half(rx: Rx, given: nat)

  /** The receiver has read a part of a frame, its opening flag first.  That flag leaves nothing of what was before. */
  predicate StandsAt(cfg: RxConfig, rx: Rx, part: seq<Octet>) {
    if part == [] then HandleFlag(rx) == [] else rx == RxRun(cfg, IDLE, part).rx
  }

  /** A receiver stands where it was given a part of the first frame of its channel. */
  predicate InStep(c: Config, peer: Octet, h: Half, ch: seq<Sent>, crc: Driver) {
    && IsPart(crc, ch, h.given) && h.given <= |S.Wire(crc, ch)|
    && StandsAt(RxOf(c, peer, crc), h.rx, S.Wire(crc, ch)[..h.given])
  }

  /** What a call with the octets i to j of a stream reads. */
  function Read(cfg: RxConfig, rx: Rx, w: seq<Octet>, i: nat, j: nat): Reading
    requires i <= j <= |w|
  {
    RxRun(cfg, rx, w[i..j])
  }

  /** Any number of octets of a frame, its closing flag not among them, dispatch nothing. */
  lemma PartIsSilent(cfg: RxConfig, rx: Rx, f: Frame, n: nat)
    requires 0 < n < |Encode(cfg.crc, f)| && HandleFlag(rx) == []
    ensures RxRun(cfg, rx, Encode(cfg.crc, f)[..n]) == Reading(RxRun(cfg, IDLE, Encode(cfg.crc, f)[..n]).rx, [])
  {
    var p := Stuff(Body(cfg.crc, f));
    StuffIsTransparent(Body(cfg.crc, f));
    assert Encode(cfg.crc, f)[..n] == [FLAG] + p[..n - 1];
    FlagAndSegment(cfg, rx, p[..n - 1]);
    FlagAndSegment(cfg, IDLE, p[..n - 1]);
  }

  /** A receiver within a frame goes on as one that reads it from its first octet. */
  lemma GoesOn(cfg: RxConfig, rx: Rx, f: Frame, n: nat, q: seq<Octet>)
    requires 0 < n < |Encode(cfg.crc, f)| && StandsAt(cfg, rx, Encode(cfg.crc, f)[..n])
    ensures RxRun(cfg, rx, q) == RxRun(cfg, IDLE, Encode(cfg.crc, f)[..n] + q)
  {
    PartIsSilent(cfg, IDLE, f, n);
    ChunkingIsInvisible(cfg, IDLE, Encode(cfg.crc, f)[..n], q);
    assert [] + RxRun(cfg, rx, q).frames == RxRun(cfg, rx, q).frames;
  }

  lemma MoreOfBegun(cfg: RxConfig, rx: Rx, f: Frame, i: nat, j: nat)
    requires 0 < i <= j < |Encode(cfg.crc, f)| && StandsAt(cfg, rx, Encode(cfg.crc, f)[..i])
    ensures RxRun(cfg, rx, Encode(cfg.crc, f)[i..j]) == Reading(RxRun(cfg, IDLE, Encode(cfg.crc, f)[..j]).rx, [])
  {
    GoesOn(cfg, rx, f, i, Encode(cfg.crc, f)[i..j]);
    assert Encode(cfg.crc, f)[..i] + Encode(cfg.crc, f)[i..j] == Encode(cfg.crc, f)[..j];
    PartIsSilent(cfg, IDLE, f, j);
  }

  /** Further octets of the same frame. */
  lemma MoreOfFrame(cfg: RxConfig, rx: Rx, f: Frame, i: nat, j: nat)
    requires i <= j < |Encode(cfg.crc, f)| && StandsAt(cfg, rx, Encode(cfg.crc, f)[..i])
    ensures RxRun(cfg, rx, Encode(cfg.crc, f)[i..j]).frames == []
    ensures StandsAt(cfg, RxRun(cfg, rx, Encode(cfg.crc, f)[i..j]).rx, Encode(cfg.crc, f)[..j])
  {
    var w := Encode(cfg.crc, f);
    if j == 0 {
      assert w[i..j] == [];
    } else if i == 0 {
      assert w[i..j] == w[..j];
      PartIsSilent(cfg, rx, f, j);
    } else {
      MoreOfBegun(cfg, rx, f, i, j);
    }
  }

  /** What a receiver dispatches of a frame. */
  function Dispatched(cfg: RxConfig, f: Frame): seq<Frame> { if Fits(cfg, f) then [Handed(f)] else [] }

  lemma WholeFrame(cfg: RxConfig, rx: Rx, f: Frame)
    requires ValidControl(f.control) && HandleFlag(rx) == []
    ensures RxRun(cfg, rx, Encode(cfg.crc, f)) == Reading(IDLE, Dispatched(cfg, f))
  {
    FrameRoundTrip(cfg, rx, f);
    assert [] + Dispatched(cfg, f) == Dispatched(cfg, f);
  }

  lemma RestOfBegun(cfg: RxConfig, rx: Rx, w: seq<Octet>, i: nat, r: Reading)
    requires 0 < i <= |w| && StandsAt(cfg, rx, w[..i])
    requires RxRun(cfg, IDLE, w[..i]).frames == [] && RxRun(cfg, IDLE, w) == r
    ensures RxRun(cfg, rx, w[i..]) == r
  {
    assert w[..i] + w[i..] == w;
    ChunkingIsInvisible(cfg, IDLE, w[..i], w[i..]);
    assert [] + RxRun(cfg, rx, w[i..]).frames == RxRun(cfg, rx, w[i..]).frames;
  }

  /** The rest of the frame. */
  lemma RestOfFrame(cfg: RxConfig, rx: Rx, f: Frame, i: nat)
    requires ValidControl(f.control) && i < |Encode(cfg.crc, f)| && StandsAt(cfg, rx, Encode(cfg.crc, f)[..i])
    ensures RxRun(cfg, rx, Encode(cfg.crc, f)[i..]) == Reading(IDLE, Dispatched(cfg, f))
  {
    if i == 0 {
      WholeFrame(cfg, rx, f);
      assert Encode(cfg.crc, f)[0..] == Encode(cfg.crc, f);
    } else {
      PartIsSilent(cfg, IDLE, f, i);
      WholeFrame(cfg, IDLE, f);
      RestOfBegun(cfg, rx, Encode(cfg.crc, f), i, Reading(IDLE, Dispatched(cfg, f)));
    }
  }

  /** The same in a stream that begins with the frame. */
  lemma PartOfStream(c: Config, peer: Octet, crc: Driver, rx: Rx, s: Sent, rest: seq<Octet>, w: seq<Octet>, i: nat,
                     j: nat)
    requires Sound(s) && w == S.Octets(crc, s) + rest && i <= j < |S.Octets(crc, s)|
    requires StandsAt(RxOf(c, peer, crc), rx, w[..i])
    ensures Read(RxOf(c, peer, crc), rx, w, i, j).frames == []
    ensures StandsAt(RxOf(c, peer, crc), Read(RxOf(c, peer, crc), rx, w, i, j).rx, w[..j])
  {
    var e := Encode(crc, s.frame);
    assert w[..i] == e[..i] && w[i..j] == e[i..j] && w[..j] == e[..j];
    MoreOfFrame(RxOf(c, peer, crc), rx, s.frame, i, j);
  }

  /** That, and then what it dispatches of the rest. */
  function Behind(cfg: RxConfig, s: Sent, r: Reading): Reading
    requires s.Sent?
  {
    Reading(r.rx, Dispatched(cfg, s.frame) + r.frames)
  }

  lemma StreamSlices(e: seq<Octet>, rest: seq<Octet>, i: nat, j: nat, k: nat)
    requires i <= |e| && j == |e| + k && k <= |rest|
    ensures (e + rest)[..i] == e[..i] && (e + rest)[i..j] == e[i..] + rest[0..k]
  {}

  lemma ThenRead(cfg: RxConfig, rx: Rx, p: seq<Octet>, q: seq<Octet>, fs: seq<Frame>)
    requires RxRun(cfg, rx, p) == Reading(IDLE, fs)
    ensures RxRun(cfg, rx, p + q) == Reading(RxRun(cfg, IDLE, q).rx, fs + RxRun(cfg, IDLE, q).frames)
  {
    ChunkingIsInvisible(cfg, rx, p, q);
  }

  lemma RestOfStream(c: Config, peer: Octet, crc: Driver, rx: Rx, s: Sent, rest: seq<Octet>, w: seq<Octet>, i: nat,
                     j: nat, k: nat)
    requires Sound(s) && w == S.Octets(crc, s) + rest && i < |S.Octets(crc, s)| && j == |S.Octets(crc, s)| + k
    requires k <= |rest| && StandsAt(RxOf(c, peer, crc), rx, w[..i])
    ensures Read(RxOf(c, peer, crc), rx, w, i, j)
      == Behind(RxOf(c, peer, crc), s, Read(RxOf(c, peer, crc), IDLE, rest, 0, k))
  {
    var e := Encode(crc, s.frame);
    StreamSlices(e, rest, i, j, k);
    RestOfFrame(RxOf(c, peer, crc), rx, s.frame, i);
    ThenRead(RxOf(c, peer, crc), rx, e[i..], rest[0..k], Dispatched(RxOf(c, peer, crc), s.frame));
  }

  lemma OneIsHeard(c: Config, peer: Octet, crc: Driver, s: Sent, r: Reading)
    requires Sound(s)
    ensures Behind(RxOf(c, peer, crc), s, r) == Reading(r.rx, Heard(c, peer, [s]) + r.frames)
  {
    assert [s][..0] == [] && Heard(c, peer, []) == [];
    assert [] + [Handed(s.frame)] == [Handed(s.frame)];
  }

  lemma {:induction false} HeardInParts(c: Config, peer: Octet, d: seq<Sent>, e: seq<Sent>)
    ensures Heard(c, peer, d + e) == Heard(c, peer, d) + Heard(c, peer, e)
  {
    if e == [] {
      assert d + e == d;
    } else {
      HeardInParts(c, peer, d, e[..|e| - 1]);
      assert (d + e)[..|d + e| - 1] == d + e[..|e| - 1];
    }
  }

  /** A call has dispatched the first n frames of a channel, and left the receiver k octets into the next. */
  predicate Leaves(c: Config, peer: Octet, ch: seq<Sent>, crc: Driver, n: nat, k: nat, r: Reading) {
    n <= |ch| && r.frames == Heard(c, peer, ch[..n]) && InStep(c, peer, Half(r.rx, k), ch[n..], crc)
  }

  /** A call that completes no frame. */
  lemma PartLeaves(c: Config, peer: Octet, h: Half, ch: seq<Sent>, crc: Driver, j: nat)
    requires InStep(c, peer, h, ch, crc) && AllSound(ch) && h.given <= j <= |S.Wire(crc, ch)| && IsPart(crc, ch, j)
    ensures Read(RxOf(c, peer, crc), h.rx, S.Wire(crc, ch), h.given, j).frames == []
    ensures InStep(c, peer, Half(Read(RxOf(c, peer, crc), h.rx, S.Wire(crc, ch), h.given, j).rx, j), ch, crc)
  {
    if ch == [] {
      assert S.Wire(crc, ch)[h.given..j] == [];
    } else {
      WireFromFront(crc, ch);
      assert Sound(ch[0]);
      PartOfStream(c, peer, crc, h.rx, ch[0], S.Wire(crc, ch[1..]), S.Wire(crc, ch), h.given, j);
    }
  }

  /** A call that completes the first frame goes on with the rest of the channel, from an idle receiver. */
  lemma FirstIsComplete(c: Config, peer: Octet, h: Half, ch: seq<Sent>, crc: Driver, j: nat, i: nat)
    requires InStep(c, peer, h, ch, crc) && ch != [] && Sound(ch[0]) && h.given <= j <= |S.Wire(crc, ch)|
    requires S.Wire(crc, ch) == S.Octets(crc, ch[0]) + S.Wire(crc, ch[1..]) && j == |S.Octets(crc, ch[0])| + i
    ensures Read(RxOf(c, peer, crc), h.rx, S.Wire(crc, ch), h.given, j)
      == Behind(RxOf(c, peer, crc), ch[0], Read(RxOf(c, peer, crc), IDLE, S.Wire(crc, ch[1..]), 0, i))
  {
    RestOfStream(c, peer, crc, h.rx, ch[0], S.Wire(crc, ch[1..]), S.Wire(crc, ch), h.given, j, i);
  }

  lemma ChannelSlices(ch: seq<Sent>, n: nat)
    requires 0 < n <= |ch|
    ensures ch[1..][n - 1..] == ch[n..]
    ensures ch[..n] == [ch[0]] + ch[1..][..n - 1]
  {}

  lemma OneMoreLeaves(c: Config, peer: Octet, ch: seq<Sent>, crc: Driver, n: nat, k: nat, r: Reading)
    requires 0 < n <= |ch| && Sound(ch[0]) && Leaves(c, peer, ch[1..], crc, n - 1, k, r)
    ensures Leaves(c, peer, ch, crc, n, k, Behind(RxOf(c, peer, crc), ch[0], r))
  {
    OneIsHeard(c, peer, crc, ch[0], r);
    ChannelSlices(ch, n);
    HeardInParts(c, peer, [ch[0]], ch[1..][..n - 1]);
  }

  lemma NoneLeaves(c: Config, peer: Octet, ch: seq<Sent>, crc: Driver, k: nat, r: Reading)
    requires r.frames == [] && InStep(c, peer, Half(r.rx, k), ch, crc)
    ensures Leaves(c, peer, ch, crc, 0, k, r)
  {
    assert ch[..0] == [] && ch[0..] == ch;
  }

  lemma FreshIsInStep(c: Config, peer: Octet, rx: Rx, ch: seq<Sent>, crc: Driver)
    requires HandleFlag(rx) == []
    ensures InStep(c, peer, Half(rx, 0), ch, crc)
  {}

  lemma RestLeaves(c: Config, peer: Octet, h: Half, ch: seq<Sent>, crc: Driver, j: nat, i: nat, n: nat, k: nat)
    requires InStep(c, peer, h, ch, crc) && ch != [] && Sound(ch[0]) && h.given <= j <= |S.Wire(crc, ch)|
    requires S.Wire(crc, ch) == S.Octets(crc, ch[0]) + S.Wire(crc, ch[1..]) && j == |S.Octets(crc, ch[0])| + i
    requires 0 < n <= |ch|
    requires Leaves(c, peer, ch[1..], crc, n - 1, k, Read(RxOf(c, peer, crc), IDLE, S.Wire(crc, ch[1..]), 0, i))
    ensures Leaves(c, peer, ch, crc, n, k, Read(RxOf(c, peer, crc), h.rx, S.Wire(crc, ch), h.given, j))
  {
    FirstIsComplete(c, peer, h, ch, crc, j, i);
    OneMoreLeaves(c, peer, ch, crc, n, k, Read(RxOf(c, peer, crc), IDLE, S.Wire(crc, ch[1..]), 0, i));
  }

  lemma NothingIsComplete(c: Config, peer: Octet, h: Half, ch: seq<Sent>, crc: Driver, j: nat, n: nat, k: nat)
    requires InStep(c, peer, h, ch, crc) && AllSound(ch) && h.given <= j <= |S.Wire(crc, ch)|
    requires (ch == [] || j < |S.Octets(crc, ch[0])|) && n == Complete(crc, ch, j) && k == Begun(crc, ch, j)
    ensures Leaves(c, peer, ch, crc, n, k, Read(RxOf(c, peer, crc), h.rx, S.Wire(crc, ch), h.given, j))
  {
    PartLeaves(c, peer, h, ch, crc, j);
    NoneLeaves(c, peer, ch, crc, j, Read(RxOf(c, peer, crc), h.rx, S.Wire(crc, ch), h.given, j));
  }

  /** The first frame is complete, the others as of a shorter channel. */
  lemma CountsOfFirst(crc: Driver, ch: seq<Sent>, j: nat, i: nat, n: nat, k: nat)
    requires ch != [] && j == |S.Octets(crc, ch[0])| + i <= |S.Wire(crc, ch)| && AllSound(ch)
    requires n == Complete(crc, ch, j) && k == Begun(crc, ch, j)
    ensures 0 < n && n - 1 == Complete(crc, ch[1..], i) && k == Begun(crc, ch[1..], i)
    ensures i <= |S.Wire(crc, ch[1..])| && Sound(ch[0]) && AllSound(ch[1..])
    ensures S.Wire(crc, ch) == S.Octets(crc, ch[0]) + S.Wire(crc, ch[1..])
  {
    WireFromFront(crc, ch);
    assert Sound(ch[0]);
  }

  /** Any slice of the stream, wherever it begins and ends, dispatches exactly the frames that it completes, and leaves
      the receiver in step with the rest. */
  lemma {:induction false} CallIsHeard(c: Config, peer: Octet, h: Half, ch: seq<Sent>, crc: Driver, j: nat, n: nat,
                                       k: nat)
    requires InStep(c, peer, h, ch, crc) && AllSound(ch) && h.given <= j <= |S.Wire(crc, ch)|
    requires n == Complete(crc, ch, j) && k == Begun(crc, ch, j)
    ensures Leaves(c, peer, ch, crc, n, k, Read(RxOf(c, peer, crc), h.rx, S.Wire(crc, ch), h.given, j))
    decreases |ch|
  {
    if ch == [] || j < |S.Octets(crc, ch[0])| {
      NothingIsComplete(c, peer, h, ch, crc, j, n, k);
    } else {
      var i := j - |S.Octets(crc, ch[0])|;
      CountsOfFirst(crc, ch, j, i, n, k);
      FreshIsInStep(c, peer, IDLE, ch[1..], crc);
      CallIsHeard(c, peer, Half(IDLE, 0), ch[1..], crc, i, n - 1, k);
      RestLeaves(c, peer, h, ch, crc, j, i, n, k);
    }
  }

  lemma {:induction false} AllIsComplete(crc: Driver, ch: seq<Sent>)
    ensures Complete(crc, ch, |S.Wire(crc, ch)|) == |ch| && Begun(crc, ch, |S.Wire(crc, ch)|) == 0
    decreases |ch|
  {
    if ch != [] {
      WireFromFront(crc, ch);
      AllIsComplete(crc, ch[1..]);
    }
  }

  lemma ReadsAll(cfg: RxConfig, rx: Rx, w: seq<Octet>)
    ensures Read(cfg, rx, w, 0, |w|) == RxRun(cfg, rx, w)
  {
    assert w[0..|w|] == w;
  }

  lemma AllLeaves(c: Config, peer: Octet, ch: seq<Sent>, crc: Driver, k: nat, r: Reading)
    requires Leaves(c, peer, ch, crc, |ch|, k, r)
    ensures r.frames == Heard(c, peer, ch)
  {
    assert ch[..|ch|] == ch;
  }

  /** A whole channel: its frames, each once and in order, and nothing else. */
  lemma WireIsHeard(c: Config, peer: Octet, crc: Driver, start: Rx, ch: seq<Sent>)
    requires AllSound(ch) && HandleFlag(start) == []
    ensures RxRun(RxOf(c, peer, crc), start, S.Wire(crc, ch)).frames == Heard(c, peer, ch)
  {
    var w := S.Wire(crc, ch);
    FreshIsInStep(c, peer, start, ch, crc);
    AllIsComplete(crc, ch);
    CallIsHeard(c, peer, Half(start, 0), ch, crc, |w|, |ch|, 0);
    AllLeaves(c, peer, ch, crc, 0, Read(RxOf(c, peer, crc), start, w, 0, |w|));
    ReadsAll(RxOf(c, peer, crc), start, w);
  }

  /** An abort puts two bare flags on the line. */
  lemma AbortSends(l: Link, crc: Driver)
    ensures Abort(l).log.out == l.log.out + [Sent.TwoFlags] && S.Octets(crc, Sent.TwoFlags) == [0x7E, 0x7E]
  {}

  /** Whatever a receiver was in the middle of, after them it is idle and reads the next frame as it was sent. */
  lemma AbortIsRead(cfg: RxConfig, rx: Rx, f: Frame)
    requires ValidControl(f.control)
    ensures RxRun(cfg, rx, S.Octets(cfg.crc, Sent.TwoFlags)) == Reading(IDLE, HandleFlag(rx))
    ensures RxRun(cfg, rx, S.Octets(cfg.crc, Sent.TwoFlags) + Encode(cfg.crc, f))
      == Reading(IDLE, HandleFlag(rx) + Dispatched(cfg, f))
  {
    OneFlagIsRead(cfg, rx);
    OneFlagIsRead(cfg, IDLE);
    ChunkingIsInvisible(cfg, rx, [FLAG], [FLAG]);
    assert [FLAG] + [FLAG] == [FLAG, FLAG] && HandleFlag(rx) + [] == HandleFlag(rx);
    WholeFrame(cfg, IDLE, f);
    ChunkingIsInvisible(cfg, rx, [FLAG, FLAG], Encode(cfg.crc, f));
  }

  lemma OneFlagIsRead(cfg: RxConfig, rx: Rx)
    ensures RxRun(cfg, rx, [FLAG]) == Reading(IDLE, HandleFlag(rx)) && HandleFlag(IDLE) == []
  {
    OpeningFlag(cfg, rx);
  }

  // ---------------------------------------------------------------------------------------------
  // The octet system
  // ---------------------------------------------------------------------------------------------

  /** Two stations, each with its receiver.  On its way to a are the octets of the frames of s.ba but the first
      ra.given. */
  datatype LineSystem = LineSystem(s: System, ra: Half, rb: Half, crc: Driver)

  function SwapLine(o: LineSystem): LineSystem { LineSystem(Swap(o.s), o.rb, o.ra, o.crc) }

  /** At one station: the user or a timer calls, one call of `data_in` is given the next n octets, or a frame is lost
      none of which the station has been given. */
  datatype OctetMove = Act(call: Runs.Call) | Take(n: nat) | Drop(k: nat)

  function Reads(o: LineSystem, n: nat): Reading
    requires o.ra.given + n <= |S.Wire(o.crc, o.s.ba)|
  {
    Read(RxOf(o.s.a.cfg, o.s.a.peer, o.crc), o.ra.rx, S.Wire(o.crc, o.s.ba), o.ra.given, o.ra.given + n)
  }

  predicate CanMove(o: LineSystem, m: OctetMove) {
    match m
    case Act(call) => Possible(o.s, Own(call))
    case Take(n) =>
      && o.ra.given + n <= |S.Wire(o.crc, o.s.ba)|
      && Runs.Allowed(o.s.a, Runs.Receive(Reads(o, n).frames))
    case Drop(k) => k < |o.s.ba| && (k > 0 || o.ra.given == 0)
  }

  function Moved(o: LineSystem, m: OctetMove): LineSystem
    requires CanMove(o, m)
  {
    match m
    case Act(call) => o.(s := After(o.s, Own(call)))
    case Take(n) =>
      var a := Runs.Do(o.s.a, Runs.Receive(Reads(o, n).frames));
      var i := o.ra.given + n;
      o.(s := System(a, o.s.b, o.s.ab + Emitted(o.s.a, a), o.s.ba[Complete(o.crc, o.s.ba, i)..]),
         ra := Half(Reads(o, n).rx, Begun(o.crc, o.s.ba, i)))
    case Drop(k) => o.(s := After(o.s, Lose(k)))
  }

  /** A move at a, or with the roles changed at b. */
  ghost predicate NextLine(o: LineSystem, o': LineSystem, atA: bool, m: OctetMove) {
    if atA then CanMove(o, m) && o' == Moved(o, m)
    else CanMove(SwapLine(o), m) && SwapLine(o') == Moved(SwapLine(o), m)
  }

  // ---------------------------------------------------------------------------------------------
  // Refinement
  // ---------------------------------------------------------------------------------------------

  predicate Tracks(o: LineSystem) {
    && Safe(o.s)
    && InStep(o.s.a.cfg, o.s.a.peer, o.ra, o.s.ba, o.crc) && InStep(o.s.b.cfg, o.s.b.peer, o.rb, o.s.ab, o.crc)
  }

  /** Whatever is on its way in a safe system is built properly. */
  lemma FlightIsSound(x: Sequence, y: Sequence, xy: seq<Sent>)
    requires Flight(x, y, xy)
    ensures AllSound(xy)
  {
    forall k | 0 <= k < |xy| ensures Sound(xy[k]) {
      assert Acknowledges(xy[k], Acked(y), |x.received|);
    }
  }

  /** A growing channel keeps its receiver in step. */
  lemma SendingKeepsStep(c: Config, peer: Octet, h: Half, ch: seq<Sent>, more: seq<Sent>, crc: Driver)
    requires InStep(c, peer, h, ch, crc)
    ensures InStep(c, peer, h, ch + more, crc)
  {
    WireInParts(crc, ch, more);
    assert S.Wire(crc, ch + more)[..h.given] == S.Wire(crc, ch)[..h.given];
    if ch != [] {
      assert (ch + more)[0] == ch[0];
    }
  }

  lemma WireOfStart(crc: Driver, ch: seq<Sent>, k: nat, i: nat)
    requires 0 < k <= |ch| && IsPart(crc, ch, i)
    ensures i <= |S.Wire(crc, ch[..k])| && i <= |S.Wire(crc, ch)|
    ensures S.Wire(crc, ch[..k])[..i] == S.Wire(crc, ch)[..i]
  {
    WireFromFront(crc, ch[..k]);
    assert ch[..k] + ch[k..] == ch;
    WireInParts(crc, ch[..k], ch[k..]);
  }

  /** So does a loss behind what it has been given. */
  lemma LossKeepsStep(c: Config, peer: Octet, h: Half, ch: seq<Sent>, k: nat, crc: Driver)
    requires InStep(c, peer, h, ch, crc) && k < |ch| && (k > 0 || h.given == 0)
    ensures InStep(c, peer, h, Without(ch, k), crc)
  {
    if k == 0 {
      FreshIsInStep(c, peer, h.rx, Without(ch, k), crc);
    } else {
      WireOfStart(crc, ch, k, h.given);
      assert Without(ch, k)[..k] == ch[..k] && Without(ch, k)[0] == ch[0];
      WireOfStart(crc, Without(ch, k), k, h.given);
    }
  }

  /** What a move at a is in the two-station system. */
  function Refined(o: LineSystem, m: OctetMove): Move {
    match m
    case Act(call) => Own(call)
    case Take(n) => Arrive(Complete(o.crc, o.s.ba, o.ra.given + n))
    case Drop(k) => Lose(k)
  }

  /** The next n octets reach up to j: they complete m frames, and go k octets into the next. */
  predicate Reaches(o: LineSystem, n: nat, j: nat, m: nat, k: nat) {
    && j == o.ra.given + n && j <= |S.Wire(o.crc, o.s.ba)|
    && m == Complete(o.crc, o.s.ba, j) && k == Begun(o.crc, o.s.ba, j)
  }

  lemma ReadsUpTo(o: LineSystem, n: nat, j: nat, r: Reading)
    requires j == o.ra.given + n && j <= |S.Wire(o.crc, o.s.ba)| && r == Reads(o, n)
    ensures r == Read(RxOf(o.s.a.cfg, o.s.a.peer, o.crc), o.ra.rx, S.Wire(o.crc, o.s.ba), o.ra.given, j)
  {}

  lemma TakeIsHeard(o: LineSystem, n: nat, j: nat, m: nat, k: nat, r: Reading)
    requires Reaches(o, n, j, m, k) && AllSound(o.s.ba) && InStep(o.s.a.cfg, o.s.a.peer, o.ra, o.s.ba, o.crc)
    requires r == Reads(o, n)
    ensures Leaves(o.s.a.cfg, o.s.a.peer, o.s.ba, o.crc, m, k, r)
  {
    ReadsUpTo(o, n, j, r);
    CallIsHeard(o.s.a.cfg, o.s.a.peer, o.ra, o.s.ba, o.crc, j, m, k);
  }

  lemma TakeIsAllowed(o: LineSystem, n: nat, j: nat, m: nat, k: nat, r: Reading)
    requires Reaches(o, n, j, m, k) && r == Reads(o, n) && r.frames == Heard(o.s.a.cfg, o.s.a.peer, o.s.ba[..m])
    ensures CanMove(o, Take(n)) <==> Possible(o.s, Arrive(m))
  {}

  lemma TakeIsArrival(o: LineSystem, n: nat, j: nat, m: nat, k: nat, r: Reading)
    requires Reaches(o, n, j, m, k) && r == Reads(o, n) && r.frames == Heard(o.s.a.cfg, o.s.a.peer, o.s.ba[..m])
    requires CanMove(o, Take(n)) && Possible(o.s, Arrive(m))
    ensures Refined(o, Take(n)) == Arrive(m) && Moved(o, Take(n)).s == After(o.s, Arrive(m))
    ensures Moved(o, Take(n)).ra == Half(r.rx, k)
  {}

  /** A call of `data_in` with any number of the octets on their way is within bounds. */
  lemma TakeIsPossible(o: LineSystem, n: nat)
    requires Tracks(o) && o.ra.given + n <= |S.Wire(o.crc, o.s.ba)|
    ensures CanMove(o, Take(n))
  {
    var j := o.ra.given + n;
    var m, k := Complete(o.crc, o.s.ba, j), Begun(o.crc, o.s.ba, j);
    ArrivalIsPossible(o.s, m);
    FlightIsSound(o.s.b.q, o.s.a.q, o.s.ba);
    TakeIsHeard(o, n, j, m, k, Reads(o, n));
    TakeIsAllowed(o, n, j, m, k, Reads(o, n));
  }

  lemma TakeRefines(o: LineSystem, n: nat, j: nat, m: nat, k: nat)
    requires Reaches(o, n, j, m, k) && AllSound(o.s.ba) && InStep(o.s.a.cfg, o.s.a.peer, o.ra, o.s.ba, o.crc)
    requires CanMove(o, Take(n))
    ensures Refined(o, Take(n)) == Arrive(m) && Possible(o.s, Arrive(m))
    ensures Moved(o, Take(n)).s == After(o.s, Arrive(m))
    ensures InStep(o.s.a.cfg, o.s.a.peer, Moved(o, Take(n)).ra, Moved(o, Take(n)).s.ba, o.crc)
  {
    TakeIsHeard(o, n, j, m, k, Reads(o, n));
    TakeIsAllowed(o, n, j, m, k, Reads(o, n));
    TakeIsArrival(o, n, j, m, k, Reads(o, n));
  }

  /** Each move of octets is a move of the two-station system. */
  lemma MoveRefines(o: LineSystem, m: OctetMove)
    requires Tracks(o) && CanMove(o, m)
    ensures Possible(o.s, Refined(o, m)) && Moved(o, m).s == After(o.s, Refined(o, m))
    ensures Tracks(Moved(o, m))
  {
    match m {
      case Act(call) =>
        SendingKeepsStep(o.s.b.cfg, o.s.b.peer, o.rb, o.s.ab, Emitted(o.s.a, Runs.Do(o.s.a, call)), o.crc);
      case Take(n) =>
        FlightIsSound(o.s.b.q, o.s.a.q, o.s.ba);
        var j := o.ra.given + n;
        TakeRefines(o, n, j, Complete(o.crc, o.s.ba, j), Begun(o.crc, o.s.ba, j));
        SendingKeepsStep(o.s.b.cfg, o.s.b.peer, o.rb, o.s.ab,
                         Emitted(o.s.a, Runs.Do(o.s.a, Runs.Receive(Reads(o, n).frames))), o.crc);
      case Drop(k) => LossKeepsStep(o.s.a.cfg, o.s.a.peer, o.ra, o.s.ba, k, o.crc);
    }
    MoveKeepsSafe(o.s, Refined(o, m));
  }

  lemma TracksBothWays(o: LineSystem)
    ensures Tracks(SwapLine(o)) <==> Tracks(o)
  {
    SafeBothWays(o.s);
  }

  datatype OctetAction = OctetAction(atA: bool, move: OctetMove)

  function RefinedAction(o: LineSystem, action: OctetAction): Action {
    Action(action.atA, Refined(if action.atA then o else SwapLine(o), action.move))
  }

  lemma NextRefines(o: LineSystem, o': LineSystem, action: OctetAction)
    requires Tracks(o) && NextLine(o, o', action.atA, action.move)
    ensures Next(o.s, o'.s, action.atA, RefinedAction(o, action).move) && Tracks(o')
  {
    if action.atA {
      MoveRefines(o, action.move);
    } else {
      TracksBothWays(o);
      MoveRefines(SwapLine(o), action.move);
      TracksBothWays(o');
    }
  }

  // ---------------------------------------------------------------------------------------------
  // Whole histories
  // ---------------------------------------------------------------------------------------------

  ghost predicate NextLineAt(os: seq<LineSystem>, actions: seq<OctetAction>, k: nat)
    requires k < |actions| && k + 1 < |os|
  {
    NextLine(os[k], os[k + 1], actions[k].atA, actions[k].move)
  }

  /** Both ends as at an opening, and no frame pending in a receiver. */
  predicate LineOpening(o: LineSystem) {
    && Opening(o.s) && o.ra.given == o.rb.given == 0 && HandleFlag(o.ra.rx) == HandleFlag(o.rb.rx) == []
  }

  /** Any interleaving of calls by users and timers, of calls of `data_in` with any number of octets, and of losses. */
  ghost predicate IsLineHistory(os: seq<LineSystem>, actions: seq<OctetAction>) {
    && |os| == |actions| + 1 && LineOpening(os[0])
    && forall k: nat :: k < |actions| ==> NextLineAt(os, actions, k)
  }

  lemma LineOpeningTracks(o: LineSystem)
    requires LineOpening(o) && FitBoth(o.s)
    ensures Tracks(o)
  {
    OpeningIsSafe(o.s);
    FreshIsInStep(o.s.a.cfg, o.s.a.peer, o.ra.rx, o.s.ba, o.crc);
    FreshIsInStep(o.s.b.cfg, o.s.b.peer, o.rb.rx, o.s.ab, o.crc);
  }

  lemma NextTracks(os: seq<LineSystem>, actions: seq<OctetAction>, k: nat, next: nat)
    requires k < |actions| && next == k + 1 < |os| && NextLineAt(os, actions, k) && Tracks(os[k])
    ensures Tracks(os[next]) && Next(os[k].s, os[next].s, actions[k].atA, RefinedAction(os[k], actions[k]).move)
  {
    NextRefines(os[k], os[next], actions[k]);
  }

  lemma {:induction false} LineHistoriesTrack(os: seq<LineSystem>, actions: seq<OctetAction>, k: nat)
    requires IsLineHistory(os, actions) && k < |os| && FitBoth(os[0].s)
    ensures Tracks(os[k])
    decreases k
  {
    if k == 0 {
      LineOpeningTracks(os[0]);
    } else {
      LineHistoriesTrack(os, actions, k - 1);
      NextTracks(os, actions, k - 1, k);
    }
  }

  function Systems(os: seq<LineSystem>): seq<System> { seq(|os|, k requires 0 <= k < |os| => os[k].s) }

  function RefinedActions(os: seq<LineSystem>, actions: seq<OctetAction>): seq<Action>
    requires |actions| <= |os|
  {
    seq(|actions|, k requires 0 <= k < |actions| => RefinedAction(os[k], actions[k]))
  }

  /** Every history of octets is one of frames: it refines the two-station system. */
  lemma LineHistoriesRefine(os: seq<LineSystem>, actions: seq<OctetAction>)
    requires IsLineHistory(os, actions) && FitBoth(os[0].s)
    ensures IsHistory(Systems(os), RefinedActions(os, actions))
  {
    forall k: nat | k < |actions| ensures NextAt(Systems(os), RefinedActions(os, actions), k) {
      LineHistoriesTrack(os, actions, k);
      NextTracks(os, actions, k, k + 1);
    }
  }

  /** So what is delivered is a prefix of what was accepted, down to the octets. */
  lemma LinePrefixes(os: seq<LineSystem>, actions: seq<OctetAction>, k: nat)
    requires IsLineHistory(os, actions) && k < |os| && FitBoth(os[0].s)
    ensures Prefixes(os[k].s)
  {
    LineHistoriesRefine(os, actions);
    DeliveredIsPrefixOfAccepted(Systems(os), RefinedActions(os, actions), k);
  }
}

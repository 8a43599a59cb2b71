/** The frame check sequence of src/hdlc_crc.c.

    The library computes it one octet at a time from a 256-entry table.  Here the table form is shown
    to be the bit-serial division register, and the error-detection guarantees of the code follow
    from the register: it is linear, it can be run backwards, and it tracks the parity of its input.
  */
module Crc {

  type Octet = bv8

  /** A checksum driver: one octet into the register.  Both call sites of the library feed one octet. */
  type Driver = (bv16, Octet) -> bv16

  const FCS_INIT: bv16 := 0xFFFF

  // The lookup table, one row of sixteen entries per high nibble of the index.

  function Row0(i: bv8): bv16 {
    if i == 0 then 0x0000 else if i == 1 then 0x1189 else if i == 2 then 0x2312 else if i == 3 then 0x329B else
    if i == 4 then 0x4624 else if i == 5 then 0x57AD else if i == 6 then 0x6536 else if i == 7 then 0x74BF else
    if i == 8 then 0x8C48 else if i == 9 then 0x9DC1 else if i == 10 then 0xAF5A else if i == 11 then 0xBED3 else
    if i == 12 then 0xCA6C else if i == 13 then 0xDBE5 else if i == 14 then 0xE97E else 0xF8F7
  }

  function Row1(i: bv8): bv16 {
    if i == 0 then 0x1081 else if i == 1 then 0x0108 else if i == 2 then 0x3393 else if i == 3 then 0x221A else
    if i == 4 then 0x56A5 else if i == 5 then 0x472C else if i == 6 then 0x75B7 else if i == 7 then 0x643E else
    if i == 8 then 0x9CC9 else if i == 9 then 0x8D40 else if i == 10 then 0xBFDB else if i == 11 then 0xAE52 else
    if i == 12 then 0xDAED else if i == 13 then 0xCB64 else if i == 14 then 0xF9FF else 0xE876
  }

  function Row2(i: bv8): bv16 {
    if i == 0 then 0x2102 else if i == 1 then 0x308B else if i == 2 then 0x0210 else if i == 3 then 0x1399 else
    if i == 4 then 0x6726 else if i == 5 then 0x76AF else if i == 6 then 0x4434 else if i == 7 then 0x55BD else
    if i == 8 then 0xAD4A else if i == 9 then 0xBCC3 else if i == 10 then 0x8E58 else if i == 11 then 0x9FD1 else
    if i == 12 then 0xEB6E else if i == 13 then 0xFAE7 else if i == 14 then 0xC87C else 0xD9F5
  }

  function Row3(i: bv8): bv16 {
    if i == 0 then 0x3183 else if i == 1 then 0x200A else if i == 2 then 0x1291 else if i == 3 then 0x0318 else
    if i == 4 then 0x77A7 else if i == 5 then 0x662E else if i == 6 then 0x54B5 else if i == 7 then 0x453C else
    if i == 8 then 0xBDCB else if i == 9 then 0xAC42 else if i == 10 then 0x9ED9 else if i == 11 then 0x8F50 else
    if i == 12 then 0xFBEF else if i == 13 then 0xEA66 else if i == 14 then 0xD8FD else 0xC974
  }

  function Row4(i: bv8): bv16 {
    if i == 0 then 0x4204 else if i == 1 then 0x538D else if i == 2 then 0x6116 else if i == 3 then 0x709F else
    if i == 4 then 0x0420 else if i == 5 then 0x15A9 else if i == 6 then 0x2732 else if i == 7 then 0x36BB else
    if i == 8 then 0xCE4C else if i == 9 then 0xDFC5 else if i == 10 then 0xED5E else if i == 11 then 0xFCD7 else
    if i == 12 then 0x8868 else if i == 13 then 0x99E1 else if i == 14 then 0xAB7A else 0xBAF3
  }

  function Row5(i: bv8): bv16 {
    if i == 0 then 0x5285 else if i == 1 then 0x430C else if i == 2 then 0x7197 else if i == 3 then 0x601E else
    if i == 4 then 0x14A1 else if i == 5 then 0x0528 else if i == 6 then 0x37B3 else if i == 7 then 0x263A else
    if i == 8 then 0xDECD else if i == 9 then 0xCF44 else if i == 10 then 0xFDDF else if i == 11 then 0xEC56 else
    if i == 12 then 0x98E9 else if i == 13 then 0x8960 else if i == 14 then 0xBBFB else 0xAA72
  }

  function Row6(i: bv8): bv16 {
    if i == 0 then 0x6306 else if i == 1 then 0x728F else if i == 2 then 0x4014 else if i == 3 then 0x519D else
    if i == 4 then 0x2522 else if i == 5 then 0x34AB else if i == 6 then 0x0630 else if i == 7 then 0x17B9 else
    if i == 8 then 0xEF4E else if i == 9 then 0xFEC7 else if i == 10 then 0xCC5C else if i == 11 then 0xDDD5 else
    if i == 12 then 0xA96A else if i == 13 then 0xB8E3 else if i == 14 then 0x8A78 else 0x9BF1
  }

  function Row7(i: bv8): bv16 {
    if i == 0 then 0x7387 else if i == 1 then 0x620E else if i == 2 then 0x5095 else if i == 3 then 0x411C else
    if i == 4 then 0x35A3 else if i == 5 then 0x242A else if i == 6 then 0x16B1 else if i == 7 then 0x0738 else
    if i == 8 then 0xFFCF else if i == 9 then 0xEE46 else if i == 10 then 0xDCDD else if i == 11 then 0xCD54 else
    if i == 12 then 0xB9EB else if i == 13 then 0xA862 else if i == 14 then 0x9AF9 else 0x8B70
  }

  function Row8(i: bv8): bv16 {
    if i == 0 then 0x8408 else if i == 1 then 0x9581 else if i == 2 then 0xA71A else if i == 3 then 0xB693 else
    if i == 4 then 0xC22C else if i == 5 then 0xD3A5 else if i == 6 then 0xE13E else if i == 7 then 0xF0B7 else
    if i == 8 then 0x0840 else if i == 9 then 0x19C9 else if i == 10 then 0x2B52 else if i == 11 then 0x3ADB else
    if i == 12 then 0x4E64 else if i == 13 then 0x5FED else if i == 14 then 0x6D76 else 0x7CFF
  }

  function Row9(i: bv8): bv16 {
    if i == 0 then 0x9489 else if i == 1 then 0x8500 else if i == 2 then 0xB79B else if i == 3 then 0xA612 else
    if i == 4 then 0xD2AD else if i == 5 then 0xC324 else if i == 6 then 0xF1BF else if i == 7 then 0xE036 else
    if i == 8 then 0x18C1 else if i == 9 then 0x0948 else if i == 10 then 0x3BD3 else if i == 11 then 0x2A5A else
    if i == 12 then 0x5EE5 else if i == 13 then 0x4F6C else if i == 14 then 0x7DF7 else 0x6C7E
  }

  function RowA(i: bv8): bv16 {
    if i == 0 then 0xA50A else if i == 1 then 0xB483 else if i == 2 then 0x8618 else if i == 3 then 0x9791 else
    if i == 4 then 0xE32E else if i == 5 then 0xF2A7 else if i == 6 then 0xC03C else if i == 7 then 0xD1B5 else
    if i == 8 then 0x2942 else if i == 9 then 0x38CB else if i == 10 then 0x0A50 else if i == 11 then 0x1BD9 else
    if i == 12 then 0x6F66 else if i == 13 then 0x7EEF else if i == 14 then 0x4C74 else 0x5DFD
  }

  function RowB(i: bv8): bv16 {
    if i == 0 then 0xB58B else if i == 1 then 0xA402 else if i == 2 then 0x9699 else if i == 3 then 0x8710 else
    if i == 4 then 0xF3AF else if i == 5 then 0xE226 else if i == 6 then 0xD0BD else if i == 7 then 0xC134 else
    if i == 8 then 0x39C3 else if i == 9 then 0x284A else if i == 10 then 0x1AD1 else if i == 11 then 0x0B58 else
    if i == 12 then 0x7FE7 else if i == 13 then 0x6E6E else if i == 14 then 0x5CF5 else 0x4D7C
  }

  function RowC(i: bv8): bv16 {
    if i == 0 then 0xC60C else if i == 1 then 0xD785 else if i == 2 then 0xE51E else if i == 3 then 0xF497 else
    if i == 4 then 0x8028 else if i == 5 then 0x91A1 else if i == 6 then 0xA33A else if i == 7 then 0xB2B3 else
    if i == 8 then 0x4A44 else if i == 9 then 0x5BCD else if i == 10 then 0x6956 else if i == 11 then 0x78DF else
    if i == 12 then 0x0C60 else if i == 13 then 0x1DE9 else if i == 14 then 0x2F72 else 0x3EFB
  }

  function RowD(i: bv8): bv16 {
    if i == 0 then 0xD68D else if i == 1 then 0xC704 else if i == 2 then 0xF59F else if i == 3 then 0xE416 else
    if i == 4 then 0x90A9 else if i == 5 then 0x8120 else if i == 6 then 0xB3BB else if i == 7 then 0xA232 else
    if i == 8 then 0x5AC5 else if i == 9 then 0x4B4C else if i == 10 then 0x79D7 else if i == 11 then 0x685E else
    if i == 12 then 0x1CE1 else if i == 13 then 0x0D68 else if i == 14 then 0x3FF3 else 0x2E7A
  }

  function RowE(i: bv8): bv16 {
    if i == 0 then 0xE70E else if i == 1 then 0xF687 else if i == 2 then 0xC41C else if i == 3 then 0xD595 else
    if i == 4 then 0xA12A else if i == 5 then 0xB0A3 else if i == 6 then 0x8238 else if i == 7 then 0x93B1 else
    if i == 8 then 0x6B46 else if i == 9 then 0x7ACF else if i == 10 then 0x4854 else if i == 11 then 0x59DD else
    if i == 12 then 0x2D62 else if i == 13 then 0x3CEB else if i == 14 then 0x0E70 else 0x1FF9
  }

  function RowF(i: bv8): bv16 {
    if i == 0 then 0xF78F else if i == 1 then 0xE606 else if i == 2 then 0xD49D else if i == 3 then 0xC514 else
    if i == 4 then 0xB1AB else if i == 5 then 0xA022 else if i == 6 then 0x92B9 else if i == 7 then 0x8330 else
    if i == 8 then 0x7BC7 else if i == 9 then 0x6A4E else if i == 10 then 0x58D5 else if i == 11 then 0x495C else
    if i == 12 then 0x3DE3 else if i == 13 then 0x2C6A else if i == 14 then 0x1EF1 else 0x0F78
  }

  function Fcstab(i: bv8): bv16 {
    var col := i & 0xF;
    if i < 0x10 then Row0(col) else
    if i < 0x20 then Row1(col) else
    if i < 0x30 then Row2(col) else
    if i < 0x40 then Row3(col) else
    if i < 0x50 then Row4(col) else
    if i < 0x60 then Row5(col) else
    if i < 0x70 then Row6(col) else
    if i < 0x80 then Row7(col) else
    if i < 0x90 then Row8(col) else
    if i < 0xA0 then Row9(col) else
    if i < 0xB0 then RowA(col) else
    if i < 0xC0 then RowB(col) else
    if i < 0xD0 then RowC(col) else
    if i < 0xE0 then RowD(col) else
    if i < 0xF0 then RowE(col) else
    RowF(col)
  }

  /** One octet through the table: the built-in driver. */
  function Update(fcs: bv16, data: Octet): bv16 {
    Mix(fcs, Fcstab(((fcs ^ (data as bv16)) & 0xFF) as bv8))
  }

  function Mix(fcs: bv16, entry: bv16): bv16 { (fcs >> 8) ^ entry }

  /** A whole message through a driver, first octet first. */
  function Compute(crc: Driver, reg: bv16, m: seq<Octet>): bv16 {
    if m == [] then reg else crc(Compute(crc, reg, m[..|m| - 1]), m[|m| - 1])
  }

  /** The loop of `soft_compute`. */
  method SoftCompute(reg: bv16, buf: seq<Octet>) returns (crc: bv16)
    ensures crc == Compute(Update, reg, buf)
  {
    crc := reg;
    for i := 0 to |buf|
      invariant crc == Compute(Update, reg, buf[..i])
    {
      assert buf[..i + 1][..i] == buf[..i];
      crc := Update(crc, buf[i]);
    }
    assert buf[..|buf|] == buf;
  }

  lemma {:induction false} ComputeConcat(crc: Driver, reg: bv16, m: seq<Octet>, n: seq<Octet>)
    ensures Compute(crc, reg, m + n) == Compute(crc, Compute(crc, reg, m), n)
  {
    if n == [] {
      assert m + n == m;
    } else {
      var k := |n| - 1;
      assert (m + n)[..|m + n| - 1] == m + n[..k];
      ComputeConcat(crc, reg, m, n[..k]);
    }
  }

  lemma ComputeSnoc(crc: Driver, reg: bv16, m: seq<Octet>, b: Octet)
    ensures Compute(crc, reg, m + [b]) == crc(Compute(crc, reg, m), b)
  {
    assert (m + [b])[..|m|] == m;
  }

  // ---------------------------------------------------------------------------------------------
  // The bit-serial register
  // ---------------------------------------------------------------------------------------------

  /** A shift register of sixteen stages; stage 0 is the next to leave. */
  type Register = r: seq<bool> | |r| == 16 witness Zeros(16)

  function Zeros(n: nat): (z: seq<bool>)
    ensures |z| == n && forall i :: 0 <= i < n ==> !z[i]
  {
    seq(n, _ => false)
  }

  /** The stages the feedback enters: x^16 + x^12 + x^5 + 1, reflected, which is 0x8408. */
  predicate Tap(i: nat) { i == 3 || i == 10 || i == 15 }

  /** One step of the division: a message bit meets stage 0, and the outcome is fed back. */
  function Clock(r: Register, bit: bool): Register {
    var fb := r[0] != bit;
    seq(16, i requires 0 <= i < 16 => (i < 15 && r[i + 1]) != (Tap(i) && fb))
  }

  function ClockAll(r: Register, bits: seq<bool>): Register
    decreases |bits|
  {
    if bits == [] then r else ClockAll(Clock(r, bits[0]), bits[1..])
  }

  function Xor(a: seq<bool>, b: seq<bool>): (c: seq<bool>)
    requires |a| == |b|
    ensures |c| == |a| && forall i :: 0 <= i < |a| ==> c[i] == (a[i] != b[i])
  {
    seq(|a|, i requires 0 <= i < |a| => a[i] != b[i])
  }

  lemma ClockIsLinear(r: Register, s: Register, b: bool, c: bool)
    ensures Clock(Xor(r, s), b != c) == Xor(Clock(r, b), Clock(s, c))
  {}

  /** The register is linear: the check of a sum is the sum of the checks. */
  lemma {:induction false} ClockAllIsLinear(r: Register, s: Register, m: seq<bool>, n: seq<bool>)
    requires |m| == |n|
    ensures ClockAll(Xor(r, s), Xor(m, n)) == Xor(ClockAll(r, m), ClockAll(s, n))
    decreases |m|
  {
    if m != [] {
      ClockIsLinear(r, s, m[0], n[0]);
      assert Xor(m, n)[1..] == Xor(m[1..], n[1..]);
      ClockAllIsLinear(Clock(r, m[0]), Clock(s, n[0]), m[1..], n[1..]);
    }
  }

  lemma {:induction false} ClockAllConcat(r: Register, a: seq<bool>, b: seq<bool>)
    ensures ClockAll(r, a + b) == ClockAll(ClockAll(r, a), b)
    decreases |a|
  {
    if a == [] {
      assert a + b == b;
    } else {
      assert (a + b)[1..] == a[1..] + b;
      ClockAllConcat(Clock(r, a[0]), a[1..], b);
    }
  }

  /** Run backwards: at most sixteen bits that leave the register empty were its own stages. */
  lemma {:induction false} EmptiedRegister(r: Register, w: seq<bool>)
    requires |w| <= 16 && ClockAll(r, w) == Zeros(16)
    ensures forall i :: 0 <= i < 16 ==> r[i] == (i < |w| && w[i])
    decreases |w|
  {
    if w != [] {
      var next := Clock(r, w[0]);
      EmptiedRegister(next, w[1..]);
      assert !next[15];
      forall i | 0 <= i < 16 ensures r[i] == (i < |w| && w[i]) {
        if i > 0 {
          assert next[i - 1] == (i - 1 < |w| - 1 && w[1..][i - 1]);
        }
      }
    }
  }

  lemma {:induction false} IdleRegister(w: seq<bool>)
    requires forall i :: 0 <= i < |w| ==> !w[i]
    ensures ClockAll(Zeros(16), w) == Zeros(16)
  {
    if w != [] {
      assert Clock(Zeros(16), false) == Zeros(16);
      IdleRegister(w[1..]);
    }
  }

  lemma {:induction false} IdleKeepsDifference(r: Register, w: seq<bool>)
    requires forall i :: 0 <= i < |w| ==> !w[i]
    requires ClockAll(r, w) == Zeros(16)
    ensures r == Zeros(16)
    decreases |w|
  {
    if w != [] {
      var next := Clock(r, false);
      IdleKeepsDifference(next, w[1..]);
      EmptiedRegister(r, [false]);
    }
  }

  lemma BurstInIdle(n: nat, burst: seq<bool>, k: nat)
    requires |burst| <= 16
    requires ClockAll(Zeros(16), Zeros(n) + burst + Zeros(k)) == Zeros(16)
    ensures forall i :: 0 <= i < |burst| ==> !burst[i]
  {
    ClockAllConcat(Zeros(16), Zeros(n) + burst, Zeros(k));
    ClockAllConcat(Zeros(16), Zeros(n), burst);
    IdleRegister(Zeros(n));
    IdleKeepsDifference(ClockAll(Zeros(16), burst), Zeros(k));
    EmptiedRegister(Zeros(16), burst);
  }

  lemma CutBurst(e: seq<bool>, lo: nat, hi: nat)
    requires lo <= hi <= |e| && forall i :: 0 <= i < |e| && !(lo <= i < hi) ==> !e[i]
    ensures e == Zeros(lo) + e[lo..hi] + Zeros(|e| - hi)
  {}

  lemma BurstBetween(e: seq<bool>, lo: nat, hi: nat)
    requires lo <= hi <= |e| && hi - lo <= 16
    requires forall i :: 0 <= i < |e| && !(lo <= i < hi) ==> !e[i]
    requires ClockAll(Zeros(16), e) == Zeros(16)
    ensures forall i :: lo <= i < hi ==> !e[i]
  {
    var burst := e[lo..hi];
    CutBurst(e, lo, hi);
    BurstInIdle(lo, burst, |e| - hi);
    forall i | lo <= i < hi ensures !e[i] {
      assert burst[i - lo] == e[i];
    }
  }

  /** A pattern confined to sixteen consecutive bits that leaves the register empty is no error at all. */
  lemma BurstIsSeen(e: seq<bool>, k: nat)
    requires forall i :: 0 <= i < |e| && !(k <= i < k + 16) ==> !e[i]
    requires ClockAll(Zeros(16), e) == Zeros(16)
    ensures forall i :: 0 <= i < |e| ==> !e[i]
  {
    BurstBetween(e, if k <= |e| then k else |e|, if k + 16 <= |e| then k + 16 else |e|);
  }

  // Parity

  function Odd(s: seq<bool>): bool {
    if s == [] then false else s[0] != Odd(s[1..])
  }

  lemma {:induction false} OddOfXor(a: seq<bool>, b: seq<bool>)
    requires |a| == |b|
    ensures Odd(Xor(a, b)) == (Odd(a) != Odd(b))
  {
    if a != [] {
      assert Xor(a, b)[1..] == Xor(a[1..], b[1..]);
      OddOfXor(a[1..], b[1..]);
    }
  }

  lemma {:induction false} OddOfSnoc(a: seq<bool>, x: bool)
    ensures Odd(a + [x]) == (Odd(a) != x)
  {
    if a != [] {
      assert (a + [x])[1..] == a[1..] + [x];
      OddOfSnoc(a[1..], x);
    }
  }

  lemma {:induction false} OddOfZeros(n: nat)
    ensures !Odd(Zeros(n))
  {
    if n > 0 {
      assert Zeros(n)[1..] == Zeros(n - 1);
      OddOfZeros(n - 1);
    }
  }

  function Taps(fb: bool): Register {
    seq(16, i requires 0 <= i < 16 => Tap(i) && fb)
  }

  /** The generator has an even number of terms, so the register tracks the parity of its input. */
  lemma ClockTracksParity(r: Register, bit: bool)
    ensures Odd(Clock(r, bit)) == (Odd(r) != bit)
  {
    var fb := r[0] != bit;
    var t := Taps(fb);
    assert Clock(r, bit) == Xor(r[1..] + [false], t);
    OddOfXor(r[1..] + [false], t);
    OddOfSnoc(r[1..], false);
    assert Odd(t) == fb by {
      OddOfZeros(3); OddOfZeros(9); OddOfZeros(14);
      OddOfSnoc(t[..15], fb);
      assert t == t[..15] + [fb];
      var a := Zeros(3) + [fb] + Zeros(11);
      var b := Zeros(10) + [fb] + Zeros(4);
      assert t[..15] == Xor(a, b);
      OddOfXor(a, b);
      OddOfOne(3, 11, fb);
      OddOfOne(10, 4, fb);
    }
  }

  lemma {:induction false} OddOfOne(n: nat, k: nat, x: bool)
    ensures Odd(Zeros(n) + [x] + Zeros(k)) == x
  {
    var s := Zeros(n) + [x] + Zeros(k);
    if n == 0 {
      assert s[1..] == Zeros(k);
      OddOfZeros(k);
    } else {
      assert s[1..] == Zeros(n - 1) + [x] + Zeros(k);
      OddOfOne(n - 1, k, x);
    }
  }

  lemma {:induction false} ClockAllTracksParity(r: Register, w: seq<bool>)
    ensures Odd(ClockAll(r, w)) == (Odd(r) != Odd(w))
    decreases |w|
  {
    if w != [] {
      ClockTracksParity(r, w[0]);
      ClockAllTracksParity(Clock(r, w[0]), w[1..]);
    }
  }

  // ---------------------------------------------------------------------------------------------
  // The table computes the register
  // ---------------------------------------------------------------------------------------------

  function Mask(i: nat): bv16 {
    if i == 0 then 0x0001 else if i == 1 then 0x0002 else if i == 2 then 0x0004 else if i == 3 then 0x0008 else
    if i == 4 then 0x0010 else if i == 5 then 0x0020 else if i == 6 then 0x0040 else if i == 7 then 0x0080 else
    if i == 8 then 0x0100 else if i == 9 then 0x0200 else if i == 10 then 0x0400 else if i == 11 then 0x0800 else
    if i == 12 then 0x1000 else if i == 13 then 0x2000 else if i == 14 then 0x4000 else 0x8000
  }

  predicate Stage(v: bv16, i: nat) { v & Mask(i) != 0 }

  /** The 16-bit word the code keeps, as a register. */
  function Stages(v: bv16): Register {
    seq(16, i requires 0 <= i < 16 => Stage(v, i))
  }

  /** The bits of an octet in the order they meet the register: least significant first. */
  function OctetBits(b: Octet): (bits: seq<bool>)
    ensures |bits| == 8
  {
    Stages(b as bv16)[..8]
  }

  /** The message as a sequence of bits. */
  function Bits(m: seq<Octet>): (bits: seq<bool>)
    ensures |bits| == 8 * |m|
  {
    if m == [] then [] else Bits(m[..|m| - 1]) + OctetBits(m[|m| - 1])
  }

  /** An idle step on the 16-bit word. */
  function Shift(v: bv16): bv16 {
    if v & 1 == 1 then (v >> 1) ^ 0x8408 else v >> 1
  }

  function Shift2(v: bv16): bv16 { Shift(Shift(v)) }

  function Shift4(v: bv16): bv16 { Shift2(Shift2(v)) }

  function Shift8(v: bv16): bv16 { Shift4(Shift4(v)) }

  lemma TableIsShift8(i: bv8)
    ensures Fcstab(i) == Shift8(i as bv16)
  {
    if i < 0x40 {
    } else if i < 0x80 {
    } else if i < 0xC0 {
    }
  }

  lemma BitOfXor(r: bv16, s: bv16, m: bv16)
    ensures (r ^ s) & m == (r & m) ^ (s & m)
  {}

  lemma StageOfXor(r: bv16, s: bv16, i: nat)
    requires i < 16
    ensures Stage(r ^ s, i) == (Stage(r, i) != Stage(s, i))
  {
    BitOfXor(r, s, Mask(i));
    if
    case i == 0 =>
    case i == 1 =>
    case i == 2 =>
    case i == 3 =>
    case i == 4 =>
    case i == 5 =>
    case i == 6 =>
    case i == 7 =>
    case i == 8 =>
    case i == 9 =>
    case i == 10 =>
    case i == 11 =>
    case i == 12 =>
    case i == 13 =>
    case i == 14 =>
    case i == 15 =>
  }

  lemma StagesOfXor(r: bv16, s: bv16)
    ensures Stages(r ^ s) == Xor(Stages(r), Stages(s))
  {
    forall i | 0 <= i < 16 ensures Stages(r ^ s)[i] == Xor(Stages(r), Stages(s))[i] {
      StageOfXor(r, s, i);
    }
  }

  lemma StageOfHalf(v: bv16, i: nat)
    requires i < 16
    ensures Stage(v >> 1, i) == (i < 15 && Stage(v, i + 1))
  {
    if
    case i == 0 =>
    case i == 1 =>
    case i == 2 =>
    case i == 3 =>
    case i == 4 =>
    case i == 5 =>
    case i == 6 =>
    case i == 7 =>
    case i == 8 =>
    case i == 9 =>
    case i == 10 =>
    case i == 11 =>
    case i == 12 =>
    case i == 13 =>
    case i == 14 =>
    case i == 15 =>
  }

  lemma StageOfPoly(i: nat)
    requires i < 16
    ensures Stage(0x8408, i) == Tap(i)
  {
    if
    case i == 0 =>
    case i == 1 =>
    case i == 2 =>
    case i == 3 =>
    case i == 4 =>
    case i == 5 =>
    case i == 6 =>
    case i == 7 =>
    case i == 8 =>
    case i == 9 =>
    case i == 10 =>
    case i == 11 =>
    case i == 12 =>
    case i == 13 =>
    case i == 14 =>
    case i == 15 =>
  }

  lemma ShiftStage(v: bv16, i: nat)
    requires i < 16
    ensures Stage(Shift(v), i) == ((i < 15 && Stage(v, i + 1)) != (Tap(i) && Stage(v, 0)))
  {
    assert Stage(v, 0) == (v & 1 != 0);
    StageOfHalf(v, i);
    if v & 1 == 1 {
      StageOfPoly(i);
      StageOfXor(v >> 1, 0x8408, i);
    }
  }

  lemma ShiftIsClock(v: bv16)
    ensures Stages(Shift(v)) == Clock(Stages(v), false)
  {
    forall i | 0 <= i < 16 ensures Stages(Shift(v))[i] == Clock(Stages(v), false)[i] {
      ShiftStage(v, i);
    }
  }

  lemma ClockOnceMore(r: Register, n: nat)
    ensures ClockAll(r, Zeros(n + 1)) == ClockAll(Clock(r, false), Zeros(n))
  {
    assert Zeros(n + 1)[1..] == Zeros(n);
  }

  lemma ShiftOnce(v: bv16, n: nat)
    ensures ClockAll(Stages(v), Zeros(n + 1)) == ClockAll(Stages(Shift(v)), Zeros(n))
  {
    ShiftIsClock(v);
    ClockOnceMore(Stages(v), n);
  }

  lemma ShiftTwice(v: bv16, n: nat)
    ensures ClockAll(Stages(v), Zeros(n + 2)) == ClockAll(Stages(Shift2(v)), Zeros(n))
  {
    ShiftOnce(v, n + 1);
    ShiftOnce(Shift(v), n);
  }

  lemma ShiftFourTimes(v: bv16, n: nat)
    ensures ClockAll(Stages(v), Zeros(n + 4)) == ClockAll(Stages(Shift4(v)), Zeros(n))
  {
    ShiftTwice(v, n + 2);
    ShiftTwice(Shift2(v), n);
  }

  lemma Shift8IsClockAll(v: bv16)
    ensures Stages(Shift8(v)) == ClockAll(Stages(v), Zeros(8))
  {
    ShiftFourTimes(v, 4);
    ShiftFourTimes(Shift4(v), 0);
  }

  /** Feeding bits is adding them to the front stages and letting the register run. */
  lemma {:induction false} FeedIsAdd(r: Register, w: seq<bool>)
    requires |w| <= 16
    ensures ClockAll(r, w) == ClockAll(Xor(r, w + Zeros(16 - |w|)), Zeros(|w|))
    decreases |w|
  {
    if w == [] {
      assert Xor(r, Zeros(16)) == r;
    } else {
      var rest := w[1..];
      var x := Xor(r, w + Zeros(16 - |w|));
      assert Clock(x, false) == Xor(Clock(r, w[0]), rest + Zeros(16 - |rest|));
      ClockOnceMore(x, |rest|);
      FeedIsAdd(Clock(r, w[0]), rest);
    }
  }

  lemma {:induction false} EmptyFrontShifts(r: Register, n: nat)
    requires n <= 16 && forall i :: 0 <= i < n ==> !r[i]
    ensures ClockAll(r, Zeros(n)) == r[n..] + Zeros(n)
    decreases n
  {
    if n == 0 {
      assert r[0..] + Zeros(0) == r;
    } else {
      var next := Clock(r, false);
      assert next == r[1..] + [false];
      ClockOnceMore(r, n - 1);
      EmptyFrontShifts(next, n - 1);
    }
  }

  lemma HalvesSum(r: Register, w: seq<bool>)
    requires |w| == 8
    ensures Xor(r, w + Zeros(8)) == Xor(Zeros(8) + r[8..], Xor(r[..8], w) + Zeros(8))
  {}

  lemma UpperHalfShifts(r: Register)
    ensures ClockAll(Zeros(8) + r[8..], Zeros(8)) == r[8..] + Zeros(8)
  {
    var upper := Zeros(8) + r[8..];
    EmptyFrontShifts(upper, 8);
    assert upper[8..] == r[8..];
  }

  lemma IdleSum(r: Register, s: Register)
    ensures ClockAll(Xor(r, s), Zeros(8)) == Xor(ClockAll(r, Zeros(8)), ClockAll(s, Zeros(8)))
  {
    assert Xor(Zeros(8), Zeros(8)) == Zeros(8);
    ClockAllIsLinear(r, s, Zeros(8), Zeros(8));
  }

  lemma FeedOctet(r: Register, w: seq<bool>, high: Register, low: Register)
    requires |w| == 8 && high == r[8..] + Zeros(8) && low == Xor(r[..8], w) + Zeros(8)
    ensures ClockAll(r, w) == Xor(high, ClockAll(low, Zeros(8)))
  {
    FeedIsAdd(r, w);
    HalvesSum(r, w);
    IdleSum(Zeros(8) + r[8..], low);
    UpperHalfShifts(r);
  }

  lemma StageOfHighByte(v: bv16, i: nat)
    requires i < 16
    ensures Stage(v >> 8, i) == (i < 8 && Stage(v, i + 8))
  {
    if
    case i == 0 =>
    case i == 1 =>
    case i == 2 =>
    case i == 3 =>
    case i == 4 =>
    case i == 5 =>
    case i == 6 =>
    case i == 7 =>
    case i == 8 =>
    case i == 9 =>
    case i == 10 =>
    case i == 11 =>
    case i == 12 =>
    case i == 13 =>
    case i == 14 =>
    case i == 15 =>
  }

  lemma StageOfLowByte(v: bv16, i: nat)
    requires i < 16
    ensures Stage(v & 0xFF, i) == (i < 8 && Stage(v, i))
  {
    if
    case i == 0 =>
    case i == 1 =>
    case i == 2 =>
    case i == 3 =>
    case i == 4 =>
    case i == 5 =>
    case i == 6 =>
    case i == 7 =>
    case i == 8 =>
    case i == 9 =>
    case i == 10 =>
    case i == 11 =>
    case i == 12 =>
    case i == 13 =>
    case i == 14 =>
    case i == 15 =>
  }

  lemma TableStages(v: bv16)
    ensures Stages(Fcstab((v & 0xFF) as bv8)) == ClockAll(Stages(v & 0xFF), Zeros(8))
  {
    TableIsShift8((v & 0xFF) as bv8);
    assert ((v & 0xFF) as bv8) as bv16 == v & 0xFF;
    Shift8IsClockAll(v & 0xFF);
  }

  lemma StagesOfHighByte(v: bv16)
    ensures Stages(v >> 8) == Stages(v)[8..] + Zeros(8)
  {
    forall i | 0 <= i < 16 ensures Stages(v >> 8)[i] == (Stages(v)[8..] + Zeros(8))[i] {
      StageOfHighByte(v, i);
    }
  }

  lemma StagesOfLowByte(v: bv16)
    ensures Stages(v & 0xFF) == Stages(v)[..8] + Zeros(8)
  {
    forall i | 0 <= i < 16 ensures Stages(v & 0xFF)[i] == (Stages(v)[..8] + Zeros(8))[i] {
      StageOfLowByte(v, i);
    }
  }

  lemma SumOfFronts(r: Register, s: Register)
    ensures Xor(r, s)[..8] == Xor(r[..8], s[..8])
  {}

  lemma StagesOfIndex(fcs: bv16, b: Octet)
    ensures Stages((fcs ^ (b as bv16)) & 0xFF) == Xor(Stages(fcs)[..8], OctetBits(b)) + Zeros(8)
  {
    StagesOfLowByte(fcs ^ (b as bv16));
    StagesOfXor(fcs, b as bv16);
    SumOfFronts(Stages(fcs), Stages(b as bv16));
  }

  lemma StagesOfMix(fcs: bv16, entry: bv16)
    ensures Stages(Mix(fcs, entry)) == Xor(Stages(fcs >> 8), Stages(entry))
  {
    StagesOfXor(fcs >> 8, entry);
  }

  lemma UpdateParts(fcs: bv16, b: Octet)
    ensures Stages(Update(fcs, b))
         == Xor(Stages(fcs >> 8), ClockAll(Stages((fcs ^ (b as bv16)) & 0xFF), Zeros(8)))
  {
    var v := fcs ^ (b as bv16);
    StagesOfMix(fcs, Fcstab((v & 0xFF) as bv8));
    TableStages(v);
  }

  /** One table look-up is eight steps of the register. */
  lemma UpdateIsRegister(fcs: bv16, b: Octet)
    ensures Stages(Update(fcs, b)) == ClockAll(Stages(fcs), OctetBits(b))
  {
    UpdateParts(fcs, b);
    StagesOfHighByte(fcs);
    StagesOfIndex(fcs, b);
    FeedOctet(Stages(fcs), OctetBits(b), Stages(fcs >> 8), Stages((fcs ^ (b as bv16)) & 0xFF));
  }

  /** The table form computes the bit-serial division, for every message. */
  lemma {:induction false} TableFormIsBitSerial(fcs: bv16, m: seq<Octet>)
    ensures Stages(Compute(Update, fcs, m)) == ClockAll(Stages(fcs), Bits(m))
  {
    if m != [] {
      var k := |m| - 1;
      TableFormIsBitSerial(fcs, m[..k]);
      UpdateIsRegister(Compute(Update, fcs, m[..k]), m[k]);
      ClockAllConcat(Stages(fcs), Bits(m[..k]), OctetBits(m[k]));
    }
  }

  // ---------------------------------------------------------------------------------------------
  // The frame check sequence
  // ---------------------------------------------------------------------------------------------

  function FcsLow(fcs: bv16): Octet { (fcs & 0xFF) as Octet }

  function FcsHigh(fcs: bv16): Octet { (fcs >> 8) as Octet }

  function FcsOf(low: Octet, high: Octet): bv16 { (low as bv16) | ((high as bv16) << 8) }

  lemma FcsOctetsRoundTrip(fcs: bv16)
    ensures FcsOf(FcsLow(fcs), FcsHigh(fcs)) == fcs
  {}

  /** The comparison made at a closing flag; body is address to FCS with the escapes removed. */
  predicate FcsMatches(crc: Driver, body: seq<Octet>)
    requires |body| >= 2
  {
    var n := |body| - 2;
    Compute(crc, FCS_INIT, body[..n]) == FcsOf(body[n], body[n + 1])
  }

  predicate OneBit(m: bv16) { m & (m - 1) == 0 }

  lemma BitAgrees(v: bv16, w: bv16, m: bv16)
    requires OneBit(m) && (v & m != 0 <==> w & m != 0)
    ensures v & m == w & m
  {}

  lemma StageAgrees(v: bv16, w: bv16, i: nat)
    requires Stages(v) == Stages(w) && i < 16
    ensures Stage(v, i) == Stage(w, i)
  {
    assert Stages(v)[i] == Stages(w)[i];
  }

  lemma MaskAgrees(v: bv16, w: bv16, i: nat, m: bv16)
    requires Stages(v) == Stages(w) && i < 16 && m == Mask(i) && OneBit(m)
    ensures v & m == w & m
  {
    StageAgrees(v, w, i);
    BitAgrees(v, w, m);
  }

  lemma FourParts(v: bv16, w: bv16, a: bv16, b: bv16, c: bv16, d: bv16)
    requires v & a == w & a && v & b == w & b && v & c == w & c && v & d == w & d
    ensures v & (a | b | c | d) == w & (a | b | c | d)
  {}

  lemma FirstNibble(v: bv16, w: bv16)
    requires Stages(v) == Stages(w)
    ensures v & 0x000F == w & 0x000F
  {
    MaskAgrees(v, w, 0, 0x0001);
    MaskAgrees(v, w, 1, 0x0002);
    MaskAgrees(v, w, 2, 0x0004);
    MaskAgrees(v, w, 3, 0x0008);
    FourParts(v, w, 0x0001, 0x0002, 0x0004, 0x0008);
  }

  lemma SecondNibble(v: bv16, w: bv16)
    requires Stages(v) == Stages(w)
    ensures v & 0x00F0 == w & 0x00F0
  {
    MaskAgrees(v, w, 4, 0x0010);
    MaskAgrees(v, w, 5, 0x0020);
    MaskAgrees(v, w, 6, 0x0040);
    MaskAgrees(v, w, 7, 0x0080);
    FourParts(v, w, 0x0010, 0x0020, 0x0040, 0x0080);
  }

  lemma ThirdNibble(v: bv16, w: bv16)
    requires Stages(v) == Stages(w)
    ensures v & 0x0F00 == w & 0x0F00
  {
    MaskAgrees(v, w, 8, 0x0100);
    MaskAgrees(v, w, 9, 0x0200);
    MaskAgrees(v, w, 10, 0x0400);
    MaskAgrees(v, w, 11, 0x0800);
    FourParts(v, w, 0x0100, 0x0200, 0x0400, 0x0800);
  }

  lemma FourthNibble(v: bv16, w: bv16)
    requires Stages(v) == Stages(w)
    ensures v & 0xF000 == w & 0xF000
  {
    MaskAgrees(v, w, 12, 0x1000);
    MaskAgrees(v, w, 13, 0x2000);
    MaskAgrees(v, w, 14, 0x4000);
    MaskAgrees(v, w, 15, 0x8000);
    FourParts(v, w, 0x1000, 0x2000, 0x4000, 0x8000);
  }

  lemma FourNibbles(v: bv16, w: bv16)
    requires v & 0x000F == w & 0x000F && v & 0x00F0 == w & 0x00F0
    requires v & 0x0F00 == w & 0x0F00 && v & 0xF000 == w & 0xF000
    ensures v == w
  {}

  /** Stage by stage, four at a time: the word is what its register says. */
  lemma StagesAreFaithful(v: bv16, w: bv16)
    requires Stages(v) == Stages(w)
    ensures v == w
  {
    FirstNibble(v, w);
    SecondNibble(v, w);
    ThirdNibble(v, w);
    FourthNibble(v, w);
    FourNibbles(v, w);
  }

  lemma StagesOfNothing()
    ensures Stages(0) == Zeros(16)
  {}

  lemma StageOfFcs(low: Octet, high: Octet, i: nat)
    requires i < 16
    ensures Stage(FcsOf(low, high), i) == if i < 8 then Stage(low as bv16, i) else Stage(high as bv16, i - 8)
  {
    if
    case i == 0 =>
    case i == 1 =>
    case i == 2 =>
    case i == 3 =>
    case i == 4 =>
    case i == 5 =>
    case i == 6 =>
    case i == 7 =>
    case i == 8 =>
    case i == 9 =>
    case i == 10 =>
    case i == 11 =>
    case i == 12 =>
    case i == 13 =>
    case i == 14 =>
    case i == 15 =>
  }

  lemma StagesOfFcs(low: Octet, high: Octet)
    ensures Stages(FcsOf(low, high)) == OctetBits(low) + OctetBits(high)
  {
    var both := OctetBits(low) + OctetBits(high);
    forall i | 0 <= i < 16 ensures Stages(FcsOf(low, high))[i] == both[i] {
      StageOfFcs(low, high, i);
    }
  }

  lemma EmptiedExactlyByItself(r: Register, w: seq<bool>)
    requires |w| == 16
    ensures ClockAll(r, w) == Zeros(16) <==> r == w
  {
    if r == w {
      FeedIsAdd(r, w);
      assert w + Zeros(0) == w && Xor(r, w) == Zeros(16);
      IdleRegister(Zeros(16));
    }
    if ClockAll(r, w) == Zeros(16) {
      EmptiedRegister(r, w);
    }
  }

  lemma BitsOfSnoc(m: seq<Octet>, b: Octet)
    ensures Bits(m + [b]) == Bits(m) + OctetBits(b)
  {
    assert (m + [b])[..|m|] == m;
  }

  lemma Regroup(all: seq<bool>, most: seq<bool>, head: seq<bool>, a: seq<bool>, b: seq<bool>)
    requires all == most + b && most == head + a
    ensures all == head + (a + b)
  {}

  lemma CutLastTwo(m: seq<Octet>)
    requires |m| >= 2
    ensures m == m[..|m| - 2] + [m[|m| - 2]] + [m[|m| - 1]]
  {}

  lemma BitsOfLastTwo(m: seq<Octet>)
    requires |m| >= 2
    ensures var n := |m| - 2; Bits(m) == Bits(m[..n]) + (OctetBits(m[n]) + OctetBits(m[n + 1]))
  {
    var n := |m| - 2;
    CutLastTwo(m);
    BitsOfSnoc(m[..n], m[n]);
    BitsOfSnoc(m[..n] + [m[n]], m[n + 1]);
    Regroup(Bits(m), Bits(m[..n] + [m[n]]), Bits(m[..n]), OctetBits(m[n]), OctetBits(m[n + 1]));
  }

  /** Running the register on through the FCS empties it exactly when the FCS matches. */
  lemma FcsMatchEmptiesRegister(body: seq<Octet>)
    requires |body| >= 2
    ensures FcsMatches(Update, body) <==> ClockAll(Stages(FCS_INIT), Bits(body)) == Zeros(16)
  {
    var n := |body| - 2;
    var fcs := Compute(Update, FCS_INIT, body[..n]);
    var w := OctetBits(body[n]) + OctetBits(body[n + 1]);
    TableFormIsBitSerial(FCS_INIT, body[..n]);
    BitsOfLastTwo(body);
    ClockAllConcat(Stages(FCS_INIT), Bits(body[..n]), w);
    EmptiedExactlyByItself(Stages(fcs), w);
    StagesOfFcs(body[n], body[n + 1]);
    if Stages(fcs) == Stages(FcsOf(body[n], body[n + 1])) {
      StagesAreFaithful(fcs, FcsOf(body[n], body[n + 1]));
    }
  }

  /** The residue form of the check: the computation run on through the FCS gives zero. */
  lemma FcsResidueIsZero(body: seq<Octet>)
    requires |body| >= 2
    ensures FcsMatches(Update, body) <==> Compute(Update, FCS_INIT, body) == 0
  {
    FcsMatchEmptiesRegister(body);
    TableFormIsBitSerial(FCS_INIT, body);
    StagesOfNothing();
    if Compute(Update, FCS_INIT, body) != 0 && Stages(Compute(Update, FCS_INIT, body)) == Stages(0) {
      StagesAreFaithful(Compute(Update, FCS_INIT, body), 0);
    }
  }

  // ---------------------------------------------------------------------------------------------
  // Error detection
  // ---------------------------------------------------------------------------------------------

  lemma {:induction false} BitsAreFaithful(m: seq<Octet>, n: seq<Octet>)
    requires |m| == |n| && Bits(m) == Bits(n)
    ensures m == n
  {
    if m != [] {
      var k := |m| - 1;
      assert Bits(m[..k]) == Bits(m)[..8 * k] && Bits(n[..k]) == Bits(n)[..8 * k];
      BitsAreFaithful(m[..k], n[..k]);
      assert OctetBits(m[k]) == Bits(m)[8 * k..] && OctetBits(n[k]) == Bits(n)[8 * k..];
      OctetBitsAreFaithful(m[k], n[k]);
      assert m == m[..k] + [m[k]] && n == n[..k] + [n[k]];
    }
  }

  lemma OctetBitsAreFaithful(b: Octet, c: Octet)
    requires OctetBits(b) == OctetBits(c)
    ensures b == c
  {
    var v, w := b as bv16, c as bv16;
    forall i | 0 <= i < 16 ensures Stages(v)[i] == Stages(w)[i] {
      if i < 8 {
        assert OctetBits(b)[i] == OctetBits(c)[i];
      } else {
        OctetEndsAtEight(b, i);
        OctetEndsAtEight(c, i);
      }
    }
    StagesAreFaithful(v, w);
  }

  lemma OctetEndsAtEight(b: Octet, i: nat)
    requires 8 <= i < 16
    ensures !Stage(b as bv16, i)
  {
    if
    case i == 8 =>
    case i == 9 =>
    case i == 10 =>
    case i == 11 =>
    case i == 12 =>
    case i == 13 =>
    case i == 14 =>
    case i == 15 =>
  }

  /** Two bodies that both pass differ by a pattern that leaves an empty register empty. */
  lemma DifferenceOfPassing(m: seq<Octet>, n: seq<Octet>)
    requires |m| == |n| >= 2 && FcsMatches(Update, m) && FcsMatches(Update, n)
    ensures ClockAll(Zeros(16), Xor(Bits(m), Bits(n))) == Zeros(16)
  {
    var r := Stages(FCS_INIT);
    FcsMatchEmptiesRegister(m);
    FcsMatchEmptiesRegister(n);
    ClockAllIsLinear(r, r, Bits(m), Bits(n));
    assert Xor(r, r) == Zeros(16) && Xor(Zeros(16), Zeros(16)) == Zeros(16);
  }

  /** Errors confined to sixteen consecutive bits, wherever they lie, are detected. */
  lemma BurstsAreDetected(m: seq<Octet>, n: seq<Octet>, k: nat)
    requires |m| == |n| >= 2 && m != n
    requires forall i :: 0 <= i < 8 * |m| && !(k <= i < k + 16) ==> Bits(m)[i] == Bits(n)[i]
    ensures !(FcsMatches(Update, m) && FcsMatches(Update, n))
  {
    if FcsMatches(Update, m) && FcsMatches(Update, n) {
      var e := Xor(Bits(m), Bits(n));
      DifferenceOfPassing(m, n);
      BurstIsSeen(e, k);
      assert forall i :: 0 <= i < 8 * |m| ==> !e[i];
      assert Bits(m) == Bits(n);
      BitsAreFaithful(m, n);
    }
  }

  /** How many positions two bit strings differ in. */
  function Distance(a: seq<bool>, b: seq<bool>): nat
    requires |a| == |b|
  {
    if a == [] then 0 else (if a[0] != b[0] then 1 else 0) + Distance(a[1..], b[1..])
  }

  lemma {:induction false} OddIsDistanceParity(a: seq<bool>, b: seq<bool>)
    requires |a| == |b|
    ensures Odd(Xor(a, b)) <==> Distance(a, b) % 2 == 1
  {
    if a != [] {
      assert Xor(a, b)[1..] == Xor(a[1..], b[1..]);
      OddIsDistanceParity(a[1..], b[1..]);
    }
  }

  /** An odd number of bit errors, however many and wherever they lie, is detected. */
  lemma OddErrorsAreDetected(m: seq<Octet>, n: seq<Octet>)
    requires |m| == |n| >= 2 && Distance(Bits(m), Bits(n)) % 2 == 1
    ensures !(FcsMatches(Update, m) && FcsMatches(Update, n))
  {
    if FcsMatches(Update, m) && FcsMatches(Update, n) {
      DifferenceOfPassing(m, n);
      ClockAllTracksParity(Zeros(16), Xor(Bits(m), Bits(n)));
      OddOfZeros(16);
      OddIsDistanceParity(Bits(m), Bits(n));
    }
  }

  // ---------------------------------------------------------------------------------------------
  // The start value
  // ---------------------------------------------------------------------------------------------

  /** A frame begins with all sixteen stages set. */
  lemma FramesStartAllSet()
    ensures forall i :: 0 <= i < 16 ==> Stages(FCS_INIT)[i]
  {
    forall i | 0 <= i < 16 ensures Stages(FCS_INIT)[i] {
      assert FCS_INIT & Mask(i) == Mask(i);
      MaskIsOneBit(i);
    }
  }

  lemma MaskIsOneBit(i: nat)
    ensures Mask(i) != 0
  {}

  lemma SumOfEqual(r: Register, w: seq<bool>)
    ensures Xor(r, r) == Zeros(16) && Xor(w, w) == Zeros(|w|)
  {}

  /** No message brings two different registers together. */
  lemma ClockAllIsInjective(r: Register, s: Register, w: seq<bool>)
    requires ClockAll(r, w) == ClockAll(s, w)
    ensures r == s
  {
    ClockAllIsLinear(r, s, w, w);
    SumOfEqual(ClockAll(r, w), w);
    IdleKeepsDifference(Xor(r, s), Zeros(|w|));
    forall i | 0 <= i < 16 ensures r[i] == s[i] {
      assert !Xor(r, s)[i];
    }
  }

  lemma ComputeIsInjective(v: bv16, w: bv16, m: seq<Octet>)
    requires Compute(Update, v, m) == Compute(Update, w, m)
    ensures v == w
  {
    TableFormIsBitSerial(v, m);
    TableFormIsBitSerial(w, m);
    ClockAllIsInjective(Stages(v), Stages(w), Bits(m));
    StagesAreFaithful(v, w);
  }

  lemma ZeroMovesStart()
    ensures Update(FCS_INIT, 0) != FCS_INIT
  {}

  /** So a zero octet in front of any message changes its FCS. */
  lemma LeadingZeroIsSeen(m: seq<Octet>)
    ensures Compute(Update, FCS_INIT, [0] + m) != Compute(Update, FCS_INIT, m)
  {
    ComputeConcat(Update, FCS_INIT, [0], m);
    ComputeSnoc(Update, FCS_INIT, [], 0);
    assert [] + [0 as Octet] == [0];
    ZeroMovesStart();
    if Compute(Update, FCS_INIT, [0] + m) == Compute(Update, FCS_INIT, m) {
      ComputeIsInjective(Update(FCS_INIT, 0), FCS_INIT, m);
    }
  }

  lemma FrontSlices(body: seq<Octet>, n: nat)
    requires |body| == n + 2
    ensures ([0] + body)[..n + 1] == [0] + body[..n]
    ensures ([0] + body)[n + 1] == body[n] && ([0] + body)[n + 2] == body[n + 1]
  {}

  /** And is detected. */
  lemma LeadingZeroIsDetected(body: seq<Octet>)
    requires |body| >= 2 && FcsMatches(Update, body)
    ensures !FcsMatches(Update, [0] + body)
  {
    LeadingZeroIsSeen(body[..|body| - 2]);
    FrontSlices(body, |body| - 2);
  }
}

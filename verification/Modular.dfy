/** Remainders by a divisor that is not known: the arithmetic of the retransmit ring. */
module Modular {

  lemma {:induction false} AtLeastOnce(x: nat, w: nat)
    requires x >= 1
    ensures x * w >= w
  {
    if x > 1 {
      AtLeastOnce(x - 1, w);
    }
  }

  lemma Gap(d: nat, e: nat, w: nat)
    requires d < e
    ensures e * w >= d * w + w
  {
    AtLeastOnce(e - d, w);
    assert (e - d) * w == e * w - d * w;
  }

  lemma Unique(w: nat, d: nat, r: nat, e: nat, t: nat)
    requires r < w && t < w && d * w + r == e * w + t
    ensures d == e && r == t
  {
    if d < e {
      Gap(d, e, w);
    } else if e < d {
      Gap(e, d, w);
    }
  }

  lemma DivMod(s: nat, w: nat)
    requires w > 0
    ensures s == (s / w) * w + s % w && s % w < w
  {}

  /** Taking one whole turn off does not move a remainder. */
  lemma Turn(s: nat, w: nat)
    requires 0 < w
    ensures (s + w) % w == s % w
  {
    DivMod(s, w);
    DivMod(s + w, w);
    assert (s / w + 1) * w == (s / w) * w + w;
    Unique(w, (s + w) / w, (s + w) % w, s / w + 1, s % w);
  }

  lemma Small(s: nat, w: nat)
    requires s < w
    ensures s % w == s
  {}

  lemma Next(s: nat, w: nat)
    requires 0 < w
    ensures (s + 1) % w == if s % w + 1 == w then 0 else s % w + 1
  {
    DivMod(s, w);
    DivMod(s + 1, w);
    if s % w + 1 == w {
      assert (s / w + 1) * w == (s / w) * w + w;
      Unique(w, (s + 1) / w, (s + 1) % w, s / w + 1, 0);
    } else {
      Unique(w, (s + 1) / w, (s + 1) % w, s / w, s % w + 1);
    }
  }

  lemma NextOfRemainder(s: nat, w: nat)
    requires 0 < w
    ensures (s + 1) % w == (s % w + 1) % w
  {
    Next(s, w);
    DivMod(s, w);
    if s % w + 1 < w {
      Small(s % w + 1, w);
    }
  }

  lemma {:induction false} Sum(s: nat, k: nat, w: nat)
    requires 0 < w
    ensures (s % w + k) % w == (s + k) % w
  {
    if k == 0 {
      Small(s % w, w);
    } else {
      Sum(s, k - 1, w);
      Next(s % w + (k - 1), w);
      Next(s + (k - 1), w);
    }
  }

  lemma Distinct(i: nat, s: nat, w: nat)
    requires i < s < i + w
    ensures i % w != s % w
  {
    DivMod(i, w);
    DivMod(s, w);
    if i / w < s / w {
      Gap(i / w, s / w, w);
    } else if s / w < i / w {
      Gap(s / w, i / w, w);
    }
  }
}

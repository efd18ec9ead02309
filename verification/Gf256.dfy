/**
 Bytes as elements of the field of FIPS 197, and the S-box of section 5.1.1 with its inverse
 as literal tables.
 */
module Gf256 {
  // ---------- Addition (section 4.1) ----------

  function Add(a: bv8, b: bv8): bv8 {
    a ^ b
  }

  function Sum4(a: bv8, b: bv8, c: bv8, d: bv8): bv8 {
    Add(Add(a, b), Add(c, d))
  }

  lemma {:induction false} AddZero(a: bv8)
    ensures Add(a, 0) == a && Add(0, a) == a
  {
  }

  lemma {:induction false} AddCommutes(a: bv8, b: bv8)
    ensures Add(a, b) == Add(b, a)
  {
  }

  lemma {:induction false} AddReverse(a: bv8, b: bv8, c: bv8)
    ensures Add(Add(a, b), c) == Add(Add(c, b), a)
  {
  }

  lemma {:induction false} AddAddSame(a: bv8, k: bv8)
    ensures Add(Add(a, k), k) == a
  {
  }

  lemma {:induction false} AddAssociates(a: bv8, b: bv8, c: bv8)
    ensures Add(Add(a, b), c) == Add(a, Add(b, c))
  {
  }

  lemma {:induction false} AddExchange(a: bv8, b: bv8, c: bv8)
    ensures Add(Add(a, b), c) == Add(Add(a, c), b)
  {
  }

  lemma {:induction false} AddCancel(r: bv8, x: bv8, y: bv8)
    ensures Add(Add(r, x), Add(r, y)) == Add(x, y)
  {
    AddSwap(r, x, r, y);
    AddAddSame(0, r);
    AddZero(r);
    AddZero(Add(x, y));
  }

  lemma {:induction false} AddSwap(a: bv8, b: bv8, c: bv8, d: bv8)
    ensures Add(Add(a, b), Add(c, d)) == Add(Add(a, c), Add(b, d))
  {
    AddAssociates(a, b, Add(c, d));
    AddAssociates(b, c, d);
    AddCommutes(b, c);
    AddAssociates(c, b, d);
    AddAssociates(a, c, Add(b, d));
  }

  // ---------- Multiplication (section 4.2) ----------

  /** What is added when the degree reaches eight: the rest of the reduction polynomial. */
  function Reduction(b: bv8): bv8 {
    if b & 0x80 != 0 then 0x1b else 0
  }

  function Doubled(b: bv8): bv8 {
    b << 1
  }

  /** Multiplication by x. */
  function XTime(b: bv8): bv8 {
    Add(Doubled(b), Reduction(b))
  }

  lemma {:induction false} ReductionAdd(x: bv8, y: bv8)
    ensures Reduction(Add(x, y)) == Add(Reduction(x), Reduction(y))
  {
  }

  lemma {:induction false} DoubledAdd(x: bv8, y: bv8)
    ensures Doubled(Add(x, y)) == Add(Doubled(x), Doubled(y))
  {
  }

  lemma {:induction false} XTimeAdd(x: bv8, y: bv8)
    ensures XTime(Add(x, y)) == Add(XTime(x), XTime(y))
  {
    ReductionAdd(x, y);
    DoubledAdd(x, y);
    AddSwap(Doubled(x), Doubled(y), Reduction(x), Reduction(y));
  }

  function Part(c: bv8, k: bv8, b: bv8): bv8 {
    if c & k != 0 then b else 0
  }

  /** The product of b and c: the sum of the multiples of b by the powers of x present in c. */
  function Mul(b: bv8, c: bv8): bv8 {
    var b1 := XTime(b);
    var b2 := XTime(b1);
    var b3 := XTime(b2);
    var b4 := XTime(b3);
    var b5 := XTime(b4);
    var b6 := XTime(b5);
    var b7 := XTime(b6);
    Add(Sum4(Part(c, 0x01, b), Part(c, 0x02, b1), Part(c, 0x04, b2), Part(c, 0x08, b3)),
        Sum4(Part(c, 0x10, b4), Part(c, 0x20, b5), Part(c, 0x40, b6), Part(c, 0x80, b7)))
  }

  // ---------- The S-box (figures 7 and 14) ----------

  // Row h of a table, with column 0 in the lowest byte.
  function SboxRow(h: bv8): bv128 {
    if h == 0x0 then 0x76abd7fe2b670130c56f6bf27b777c63
    else if h == 0x1 then 0xc072a49cafa2d4adf04759fa7dc982ca
    else if h == 0x2 then 0x1531d871f1e5a534ccf73f362693fdb7
    else if h == 0x3 then 0x75b227ebe28012079a059618c323c704
    else if h == 0x4 then 0x842fe329b3d63b52a05a6e1b1a2c8309
    else if h == 0x5 then 0xcf584c4a39becb6a5bb1fc20ed00d153
    else if h == 0x6 then 0xa89f3c507f02f94585334d43fbaaefd0
    else if h == 0x7 then 0xd2f3ff1021dab6bcf5389d928f40a351
    else if h == 0x8 then 0x73195d643d7ea7c41744975fec130ccd
    else if h == 0x9 then 0xdb0b5ede14b8ee4688902a22dc4f8160
    else if h == 0xa then 0x79e4959162acd3c25c2406490a3a32e0
    else if h == 0xb then 0x08ae7a65eaf4566ca94ed58d6d37c8e7
    else if h == 0xc then 0x8a8bbd4b1f74dde8c6b4a61c2e2578ba
    else if h == 0xd then 0x9e1dc186b95735610ef6034866b53e70
    else if h == 0xe then 0xdf2855cee9871e9b948ed9691198f8e1
    else 0x16bb54b00f2d99416842e6bf0d89a18c
  }

  function InvSboxRow(h: bv8): bv128 {
    if h == 0x0 then 0xfbd7f3819ea340bf38a53630d56a0952
    else if h == 0x1 then 0xcbe9dec444438e3487ff2f9b8239e37c
    else if h == 0x2 then 0x4ec3fa420b954cee3d23c2a632947b54
    else if h == 0x3 then 0x25d18b6d49a25b76b224d92866a12e08
    else if h == 0x4 then 0x92b6655dcc5ca4d41698688664f6f872
    else if h == 0x5 then 0x849d8da75746155edab9edfd5048706c
    else if h == 0x6 then 0x0645b3b80558e4f70ad3bc8c00abd890
    else if h == 0x7 then 0x6b8a130103bdafc1020f3fca8f1e2cd0
    else if h == 0x8 then 0x73e6b4f0cecff297eadc674f4111913a
    else if h == 0x9 then 0x6edf751ce837f9e28535ade72274ac96
    else if h == 0xa then 0x1bbe18aa0e62b76f89c5291d711af147
    else if h == 0xb then 0xf45acd78fec0db9a2079d2c64b3e56fc
    else if h == 0xc then 0x5fec8027591012b131c7078833a8dd1f
    else if h == 0xd then 0xef9cc9939f7ae52d0d4ab519a97f5160
    else if h == 0xe then 0x619953833cbbebc8b0f52aae4d3be0a0
    else 0x7d0c2155631469e126d677ba7e042b17
  }

  function Entry(row: bv128, column: bv8): bv8 {
    ((row >> ((column & 0xf) << 3)) & 0xff) as bv8
  }

  function Sbox(x: bv8): bv8 {
    Entry(SboxRow(x >> 4), x)
  }

  function InvSbox(x: bv8): bv8 {
    Entry(InvSboxRow(x >> 4), x)
  }

  /** The two tables undo each other. */
  lemma {:induction false} SboxRoundTrip(x: bv8)
    ensures InvSbox(Sbox(x)) == x
  {
    if x < 0x80 {
      LowRoundTrip(x);
    } else {
      HighRoundTrip(x);
    }
  }

  lemma {:induction false} LowRoundTrip(x: bv8)
    requires x < 0x80
    ensures InvSbox(Sbox(x)) == x
  {
  }

  lemma {:induction false} HighRoundTrip(x: bv8)
    requires x >= 0x80
    ensures InvSbox(Sbox(x)) == x
  {
  }

  function Rotate(b: bv8, n: bv8): bv8
    requires n < 8
  {
    (b << n) | (b >> (8 - n))
  }

  /** The affine map of section 5.1.1 (equation 5.1), and its inverse. */
  function Affine(b: bv8): bv8 {
    b ^ Rotate(b, 1) ^ Rotate(b, 2) ^ Rotate(b, 3) ^ Rotate(b, 4) ^ 0x63
  }

  function InvAffine(b: bv8): bv8 {
    Rotate(b, 1) ^ Rotate(b, 3) ^ Rotate(b, 6) ^ 0x05
  }

  lemma {:induction false} AffineRoundTrip(b: bv8)
    ensures Affine(InvAffine(b)) == b
  {
  }

  /** The S-box is the affine map of the multiplicative inverse, with 0 its own inverse. */
  lemma {:induction false} SboxIsAffineInverse(x: bv8)
    ensures var y := InvAffine(Sbox(x));
            && Sbox(x) == Affine(y)
            && (if x == 0 then y == 0 else Mul(x, y) == 1)
  {
    AffineRoundTrip(Sbox(x));
    if x < 0x80 {
      LowInverse(x);
    } else {
      HighInverse(x);
    }
  }

  lemma {:induction false} LowInverse(x: bv8)
    requires x < 0x80
    ensures var y := InvAffine(Sbox(x)); if x == 0 then y == 0 else Mul(x, y) == 1
  {
  }

  lemma {:induction false} HighInverse(x: bv8)
    requires x >= 0x80
    ensures var y := InvAffine(Sbox(x)); if x == 0 then y == 0 else Mul(x, y) == 1
  {
  }

  // ---------- The constants of MixColumns and InvMixColumns ----------

  // Each product is written by Horner's rule.
  function Times2(b: bv8): bv8 {
    XTime(b)
  }

  function Times3(b: bv8): bv8 {
    Add(XTime(b), b)
  }

  function Times4(b: bv8): bv8 {
    XTime(XTime(b))
  }

  function Times5(b: bv8): bv8 {
    Add(Times4(b), b)
  }

  function Times7(b: bv8): bv8 {
    Add(XTime(Times3(b)), b)
  }

  function Times9(b: bv8): bv8 {
    Add(XTime(Times4(b)), b)
  }

  function TimesB(b: bv8): bv8 {
    Add(XTime(Times5(b)), b)
  }

  function TimesD(b: bv8): bv8 {
    Add(XTime(XTime(Times3(b))), b)
  }

  function TimesE(b: bv8): bv8 {
    XTime(Times7(b))
  }

  /** Horner's rule gives the products of the field. */
  lemma {:induction false} TimesIsMul(b: bv8)
    ensures Times2(b) == Mul(b, 0x02) && Times3(b) == Mul(b, 0x03)
    ensures Times9(b) == Mul(b, 0x09) && TimesB(b) == Mul(b, 0x0b)
    ensures TimesD(b) == Mul(b, 0x0d) && TimesE(b) == Mul(b, 0x0e)
  {
    var u := XTime(b);
    var v := XTime(u);
    var w := XTime(v);
    MulUnfolds(b, 0x02, u, v, w);
    MulUnfolds(b, 0x03, u, v, w);
    MulUnfolds(b, 0x09, u, v, w);
    MulUnfolds(b, 0x0b, u, v, w);
    MulUnfolds(b, 0x0d, u, v, w);
    MulUnfolds(b, 0x0e, u, v, w);
    PartsOfConstants(b, u, v, w);
    TimesPowers(b);
  }

  /** The multiples of b that Mul adds for a constant of four bits. */
  function FourParts(c: bv8, b: bv8, u: bv8, v: bv8, w: bv8): bv8 {
    Add(Sum4(Part(c, 0x01, b), Part(c, 0x02, u), Part(c, 0x04, v), Part(c, 0x08, w)), Sum4(0, 0, 0, 0))
  }

  lemma {:induction false} PartsOfConstants(b: bv8, u: bv8, v: bv8, w: bv8)
    ensures FourParts(0x02, b, u, v, w) == u
    ensures FourParts(0x03, b, u, v, w) == Add(u, b)
    ensures FourParts(0x09, b, u, v, w) == Add(w, b)
    ensures FourParts(0x0b, b, u, v, w) == Add(Add(w, u), b)
    ensures FourParts(0x0d, b, u, v, w) == Add(Add(w, v), b)
    ensures FourParts(0x0e, b, u, v, w) == Add(Add(w, v), u)
  {
    Parts2(b, u, v, w);
    Parts3(b, u, v, w);
    Parts9(b, u, v, w);
    PartsB(b, u, v, w);
    PartsD(b, u, v, w);
    PartsE(b, u, v, w);
    SparseSums(b, u, v, w);
  }

  lemma {:induction false} Parts2(b: bv8, u: bv8, v: bv8, w: bv8)
    ensures FourParts(0x02, b, u, v, w) == Add(Sum4(0, u, 0, 0), Sum4(0, 0, 0, 0))
  {
  }

  lemma {:induction false} Parts3(b: bv8, u: bv8, v: bv8, w: bv8)
    ensures FourParts(0x03, b, u, v, w) == Add(Sum4(b, u, 0, 0), Sum4(0, 0, 0, 0))
  {
  }

  lemma {:induction false} Parts9(b: bv8, u: bv8, v: bv8, w: bv8)
    ensures FourParts(0x09, b, u, v, w) == Add(Sum4(b, 0, 0, w), Sum4(0, 0, 0, 0))
  {
  }

  lemma {:induction false} PartsB(b: bv8, u: bv8, v: bv8, w: bv8)
    ensures FourParts(0x0b, b, u, v, w) == Add(Sum4(b, u, 0, w), Sum4(0, 0, 0, 0))
  {
  }

  lemma {:induction false} PartsD(b: bv8, u: bv8, v: bv8, w: bv8)
    ensures FourParts(0x0d, b, u, v, w) == Add(Sum4(b, 0, v, w), Sum4(0, 0, 0, 0))
  {
  }

  lemma {:induction false} PartsE(b: bv8, u: bv8, v: bv8, w: bv8)
    ensures FourParts(0x0e, b, u, v, w) == Add(Sum4(0, u, v, w), Sum4(0, 0, 0, 0))
  {
  }

  lemma {:induction false} MulUnfolds(b: bv8, c: bv8, u: bv8, v: bv8, w: bv8)
    requires c & 0xf0 == 0 && u == XTime(b) && v == XTime(u) && w == XTime(v)
    ensures Mul(b, c) == FourParts(c, b, u, v, w)
  {
    HighBitsClear(c);
  }

  lemma {:induction false} HighBitsClear(c: bv8)
    requires c & 0xf0 == 0
    ensures c & 0x10 == 0 && c & 0x20 == 0 && c & 0x40 == 0 && c & 0x80 == 0
  {
  }

  /** The sums of Mul for the six constants. */
  lemma {:induction false} SparseSums(b: bv8, u: bv8, v: bv8, w: bv8)
    ensures Add(Sum4(0, u, 0, 0), Sum4(0, 0, 0, 0)) == u
    ensures Add(Sum4(b, u, 0, 0), Sum4(0, 0, 0, 0)) == Add(u, b)
    ensures Add(Sum4(b, 0, 0, w), Sum4(0, 0, 0, 0)) == Add(w, b)
    ensures Add(Sum4(b, u, 0, w), Sum4(0, 0, 0, 0)) == Add(Add(w, u), b)
    ensures Add(Sum4(b, 0, v, w), Sum4(0, 0, 0, 0)) == Add(Add(w, v), b)
    ensures Add(Sum4(0, u, v, w), Sum4(0, 0, 0, 0)) == Add(Add(w, v), u)
  {
    AddZero(0);
    AddZero(b);
    AddZero(u);
    AddZero(w);
    AddZero(Add(b, u));
    AddZero(Add(b, w));
    AddZero(Add(Add(b, u), w));
    AddZero(Add(b, Add(v, w)));
    AddZero(Add(u, Add(v, w)));
    AddCommutes(b, u);
    AddCommutes(b, w);
    AddCommutes(v, w);
    AddCommutes(b, Add(v, w));
    AddCommutes(u, Add(v, w));
    AddReverse(b, u, w);
  }

  lemma {:induction false} TimesPowers(b: bv8)
    ensures var u := XTime(b); var v := XTime(u); var w := XTime(v);
            && TimesB(b) == Add(Add(w, u), b)
            && TimesD(b) == Add(Add(w, v), b)
            && TimesE(b) == Add(Add(w, v), u)
  {
    XTimeAdd(XTime(b), b);
    XTimeAdd(Times4(b), b);
    XTimeAdd(Times4(b), XTime(b));
    XTimeAdd(XTime(Times3(b)), b);
  }

  // ---------- Multiplication by a constant distributes over addition ----------

  lemma {:induction false} Times3Add(x: bv8, y: bv8)
    ensures Times3(Add(x, y)) == Add(Times3(x), Times3(y))
  {
    XTimeAdd(x, y);
    AddSwap(XTime(x), XTime(y), x, y);
  }

  lemma {:induction false} Times4Add(x: bv8, y: bv8)
    ensures Times4(Add(x, y)) == Add(Times4(x), Times4(y))
  {
    XTimeAdd(x, y);
    XTimeAdd(XTime(x), XTime(y));
  }

  lemma {:induction false} Times9Add(x: bv8, y: bv8)
    ensures Times9(Add(x, y)) == Add(Times9(x), Times9(y))
  {
    Times4Add(x, y);
    XTimeAdd(Times4(x), Times4(y));
    AddSwap(XTime(Times4(x)), XTime(Times4(y)), x, y);
  }

  lemma {:induction false} TimesBAdd(x: bv8, y: bv8)
    ensures TimesB(Add(x, y)) == Add(TimesB(x), TimesB(y))
  {
    Times4Add(x, y);
    AddSwap(Times4(x), Times4(y), x, y);
    XTimeAdd(Times5(x), Times5(y));
    AddSwap(XTime(Times5(x)), XTime(Times5(y)), x, y);
  }

  lemma {:induction false} TimesDAdd(x: bv8, y: bv8)
    ensures TimesD(Add(x, y)) == Add(TimesD(x), TimesD(y))
  {
    Times3Add(x, y);
    XTimeAdd(Times3(x), Times3(y));
    var u, v := XTime(Times3(x)), XTime(Times3(y));
    XTimeAdd(u, v);
    AddSwap(XTime(u), XTime(v), x, y);
  }

  lemma {:induction false} TimesEAdd(x: bv8, y: bv8)
    ensures TimesE(Add(x, y)) == Add(TimesE(x), TimesE(y))
  {
    Times3Add(x, y);
    XTimeAdd(Times3(x), Times3(y));
    AddSwap(XTime(Times3(x)), XTime(Times3(y)), x, y);
    XTimeAdd(Times7(x), Times7(y));
  }

  // ---------- Sums of four ----------

  lemma {:induction false} Sum4Add(a0: bv8, a1: bv8, a2: bv8, a3: bv8, b0: bv8, b1: bv8, b2: bv8, b3: bv8)
    ensures Sum4(Add(a0, b0), Add(a1, b1), Add(a2, b2), Add(a3, b3))
            == Add(Sum4(a0, a1, a2, a3), Sum4(b0, b1, b2, b3))
  {
    AddSwap(a0, b0, a1, b1);
    AddSwap(a2, b2, a3, b3);
    AddSwap(Add(a0, a1), Add(b0, b1), Add(a2, a3), Add(b2, b3));
  }

  lemma {:induction false} Sum4Rotate(a: bv8, b: bv8, c: bv8, d: bv8)
    ensures Sum4(a, b, c, d) == Sum4(d, a, b, c)
  {
    AddCommutes(Add(a, b), Add(c, d));
    AddCommutes(c, d);
    AddSwap(d, c, a, b);
    AddCommutes(c, b);
  }

  /** Adding up a square of bytes by rows or by columns. */
  lemma {:induction false} Sum4Transpose(a0: bv8, a1: bv8, a2: bv8, a3: bv8, b0: bv8, b1: bv8, b2: bv8, b3: bv8,
                      c0: bv8, c1: bv8, c2: bv8, c3: bv8, d0: bv8, d1: bv8, d2: bv8, d3: bv8)
    ensures Sum4(Sum4(a0, a1, a2, a3), Sum4(b0, b1, b2, b3), Sum4(c0, c1, c2, c3), Sum4(d0, d1, d2, d3))
            == Sum4(Sum4(a0, b0, c0, d0), Sum4(a1, b1, c1, d1), Sum4(a2, b2, c2, d2), Sum4(a3, b3, c3, d3))
  {
    Sum4Add(a0, a1, a2, a3, b0, b1, b2, b3);
    Sum4Add(c0, c1, c2, c3, d0, d1, d2, d3);
    Sum4Add(Add(a0, b0), Add(a1, b1), Add(a2, b2), Add(a3, b3), Add(c0, d0), Add(c1, d1), Add(c2, d2), Add(c3, d3));
  }

  // ---------- InvMixColumns undoes MixColumns, one source byte at a time ----------

  lemma {:induction false} OwnByte(s: bv8)
    ensures Sum4(TimesE(Times2(s)), TimesB(s), TimesD(s), Times9(Times3(s))) == s
  {
  }

  lemma {:induction false} NextByte(s: bv8)
    ensures Sum4(TimesE(Times3(s)), TimesB(Times2(s)), TimesD(s), Times9(s)) == 0
  {
    var u := XTime(s);
    TimesEAdd(u, s);
    TimesPowers(u);
    TimesPowers(s);
    NextByteCancels(s, u, XTime(u), XTime(XTime(u)), XTime(XTime(XTime(u))));
  }

  lemma {:induction false} NextByteCancels(s: bv8, u: bv8, v: bv8, w: bv8, z: bv8)
    ensures Sum4(Add(Add(Add(z, w), v), Add(Add(w, v), u)),
                 Add(Add(z, v), u), Add(Add(w, v), s), Add(w, s)) == 0
  {
  }

  lemma {:induction false} OppositeByte(s: bv8)
    ensures Sum4(TimesE(s), TimesB(Times3(s)), TimesD(Times2(s)), Times9(s)) == 0
  {
    var u := XTime(s);
    TimesBAdd(u, s);
    TimesPowers(u);
    TimesPowers(s);
    OppositeByteCancels(s, u, XTime(u), XTime(XTime(u)), XTime(XTime(XTime(u))));
  }

  lemma {:induction false} OppositeByteCancels(s: bv8, u: bv8, v: bv8, w: bv8, z: bv8)
    ensures Sum4(Add(Add(w, v), u), Add(Add(Add(z, v), u), Add(Add(w, u), s)),
                 Add(Add(z, w), u), Add(w, s)) == 0
  {
  }

  lemma {:induction false} PreviousByte(s: bv8)
    ensures Sum4(TimesE(s), TimesB(s), TimesD(Times3(s)), Times9(Times2(s))) == 0
  {
    var u := XTime(s);
    TimesDAdd(u, s);
    TimesPowers(u);
    TimesPowers(s);
    PreviousByteCancels(s, u, XTime(u), XTime(XTime(u)), XTime(XTime(XTime(u))));
  }

  lemma {:induction false} PreviousByteCancels(s: bv8, u: bv8, v: bv8, w: bv8, z: bv8)
    ensures Sum4(Add(Add(w, v), u), Add(Add(w, u), s),
                 Add(Add(Add(z, w), u), Add(Add(w, v), s)), Add(z, u)) == 0
  {
    var q, d := Add(v, s), Add(z, u);
    AddExchange(w, v, u);
    AddCancel(Add(w, u), v, s);
    AddExchange(z, w, u);
    AddCommutes(d, w);
    AddAssociates(w, v, s);
    AddCancel(w, d, q);
    AddReverse(d, q, d);
    AddCommutes(d, q);
    AddAddSame(q, d);
    AddAddSame(0, q);
    AddZero(q);
  }

  lemma {:induction false} Times9Sum4(a: bv8, b: bv8, c: bv8, d: bv8)
    ensures Times9(Sum4(a, b, c, d)) == Sum4(Times9(a), Times9(b), Times9(c), Times9(d))
  {
    Times9Add(a, b);
    Times9Add(c, d);
    Times9Add(Add(a, b), Add(c, d));
  }

  lemma {:induction false} TimesBSum4(a: bv8, b: bv8, c: bv8, d: bv8)
    ensures TimesB(Sum4(a, b, c, d)) == Sum4(TimesB(a), TimesB(b), TimesB(c), TimesB(d))
  {
    TimesBAdd(a, b);
    TimesBAdd(c, d);
    TimesBAdd(Add(a, b), Add(c, d));
  }

  lemma {:induction false} TimesDSum4(a: bv8, b: bv8, c: bv8, d: bv8)
    ensures TimesD(Sum4(a, b, c, d)) == Sum4(TimesD(a), TimesD(b), TimesD(c), TimesD(d))
  {
    TimesDAdd(a, b);
    TimesDAdd(c, d);
    TimesDAdd(Add(a, b), Add(c, d));
  }

  lemma {:induction false} TimesESum4(a: bv8, b: bv8, c: bv8, d: bv8)
    ensures TimesE(Sum4(a, b, c, d)) == Sum4(TimesE(a), TimesE(b), TimesE(c), TimesE(d))
  {
    TimesEAdd(a, b);
    TimesEAdd(c, d);
    TimesEAdd(Add(a, b), Add(c, d));
  }

  /** The first byte of a column comes back. */
  lemma {:induction false} FirstByteUnmixed(s0: bv8, s1: bv8, s2: bv8, s3: bv8)
    ensures Sum4(TimesE(Sum4(Times2(s0), Times3(s1), s2, s3)),
                 TimesB(Sum4(s0, Times2(s1), Times3(s2), s3)),
                 TimesD(Sum4(s0, s1, Times2(s2), Times3(s3))),
                 Times9(Sum4(Times3(s0), s1, s2, Times2(s3)))) == s0
  {
    TimesESum4(Times2(s0), Times3(s1), s2, s3);
    TimesBSum4(s0, Times2(s1), Times3(s2), s3);
    TimesDSum4(s0, s1, Times2(s2), Times3(s3));
    Times9Sum4(Times3(s0), s1, s2, Times2(s3));
    Sum4Transpose(TimesE(Times2(s0)), TimesE(Times3(s1)), TimesE(s2), TimesE(s3),
                  TimesB(s0), TimesB(Times2(s1)), TimesB(Times3(s2)), TimesB(s3),
                  TimesD(s0), TimesD(s1), TimesD(Times2(s2)), TimesD(Times3(s3)),
                  Times9(Times3(s0)), Times9(s1), Times9(s2), Times9(Times2(s3)));
    OwnByte(s0);
    NextByte(s1);
    OppositeByte(s2);
    PreviousByte(s3);
    AddZero(0);
    AddZero(s0);
  }
}

/**
 The word arithmetic of the table-driven implementation: four bytes packed little-endian in
 a 32-bit word, the lookup tables, and the macros built on them, each related to the
 transformation of a column that it computes.

 The tables are defined from the S-box and multiplication in the field.
 */
module AesWords {
  import opened Gf256
  import opened Fips197

  // ---------- Words and columns ----------

  /** le32_to_cpu of four bytes */
  function Pack(c: Column): bv32 {
    (c.b0 as bv32) | ((c.b1 as bv32) << 8) | ((c.b2 as bv32) << 16) | ((c.b3 as bv32) << 24)
  }

  /** The four results of byte(x, n) */
  function Unpack(x: bv32): Column {
    Column((x & 0xff) as bv8, ((x >> 8) & 0xff) as bv8, ((x >> 16) & 0xff) as bv8, ((x >> 24) & 0xff) as bv8)
  }

  function Xor(x: bv32, y: bv32): bv32 {
    x ^ y
  }

  function Ror8(x: bv32): bv32 {
    (x >> 8) | (x << 24)
  }

  function Ror16(x: bv32): bv32 {
    (x >> 16) | (x << 16)
  }

  function Ror24(x: bv32): bv32 {
    (x >> 24) | (x << 8)
  }

  lemma {:induction false} UnpackPack(c: Column)
    ensures Unpack(Pack(c)) == c
  {
  }

  lemma {:induction false} UnpackXor(x: bv32, y: bv32)
    ensures Unpack(Xor(x, y)) == AddColumn(Unpack(x), Unpack(y))
  {
  }

  lemma {:induction false} UnpackRor(x: bv32)
    ensures var c := Unpack(x);
            && Unpack(Ror8(x)) == Column(c.b1, c.b2, c.b3, c.b0)
            && Unpack(Ror16(x)) == Column(c.b2, c.b3, c.b0, c.b1)
            && Unpack(Ror24(x)) == Column(c.b3, c.b0, c.b1, c.b2)
  {
  }

  // ---------- The tables ----------

  /** crypto_ft_tab */
  function FtTab(n: nat, x: bv8): bv32
    requires n < 4
  {
    var s := Sbox(x);
    match n
    case 0 => Pack(Column(Times2(s), s, s, Times3(s)))
    case 1 => Pack(Column(Times3(s), Times2(s), s, s))
    case 2 => Pack(Column(s, Times3(s), Times2(s), s))
    case 3 => Pack(Column(s, s, Times3(s), Times2(s)))
  }

  /** crypto_fl_tab */
  function FlTab(n: nat, x: bv8): bv32
    requires n < 4
  {
    var s := Sbox(x);
    match n
    case 0 => Pack(Column(s, 0, 0, 0))
    case 1 => Pack(Column(0, s, 0, 0))
    case 2 => Pack(Column(0, 0, s, 0))
    case 3 => Pack(Column(0, 0, 0, s))
  }

  /** crypto_it_tab */
  function ItTab(n: nat, x: bv8): bv32
    requires n < 4
  {
    var s := InvSbox(x);
    match n
    case 0 => Pack(Column(TimesE(s), Times9(s), TimesD(s), TimesB(s)))
    case 1 => Pack(Column(TimesB(s), TimesE(s), Times9(s), TimesD(s)))
    case 2 => Pack(Column(TimesD(s), TimesB(s), TimesE(s), Times9(s)))
    case 3 => Pack(Column(Times9(s), TimesD(s), TimesB(s), TimesE(s)))
  }

  /** crypto_il_tab */
  function IlTab(n: nat, x: bv8): bv32
    requires n < 4
  {
    var s := InvSbox(x);
    match n
    case 0 => Pack(Column(s, 0, 0, 0))
    case 1 => Pack(Column(0, s, 0, 0))
    case 2 => Pack(Column(0, 0, s, 0))
    case 3 => Pack(Column(0, 0, 0, s))
  }

  // ---------- Sums of words ----------

  function XorFour(a: bv32, b: bv32, c: bv32, d: bv32): bv32 {
    Xor(Xor(Xor(a, b), c), d)
  }

  lemma {:induction false} AddLeft(a: bv8, b: bv8, c: bv8, d: bv8)
    ensures Add(Add(Add(a, b), c), d) == Sum4(a, b, c, d)
  {
  }

  /** The word sum of four packed columns adds them byte by byte. */
  lemma {:induction false} UnpackXorFour(a: Column, b: Column, c: Column, d: Column)
    ensures Unpack(XorFour(Pack(a), Pack(b), Pack(c), Pack(d)))
            == Column(Sum4(a.b0, b.b0, c.b0, d.b0), Sum4(a.b1, b.b1, c.b1, d.b1),
                      Sum4(a.b2, b.b2, c.b2, d.b2), Sum4(a.b3, b.b3, c.b3, d.b3))
  {
    UnpackPack(a);
    UnpackPack(b);
    UnpackPack(c);
    UnpackPack(d);
    UnpackXor(Pack(a), Pack(b));
    UnpackXor(Xor(Pack(a), Pack(b)), Pack(c));
    UnpackXor(Xor(Xor(Pack(a), Pack(b)), Pack(c)), Pack(d));
    AddLeft(a.b0, b.b0, c.b0, d.b0);
    AddLeft(a.b1, b.b1, c.b1, d.b1);
    AddLeft(a.b2, b.b2, c.b2, d.b2);
    AddLeft(a.b3, b.b3, c.b3, d.b3);
  }

  lemma {:induction false} Alone(s: bv8)
    ensures Sum4(s, 0, 0, 0) == s && Sum4(0, s, 0, 0) == s && Sum4(0, 0, s, 0) == s && Sum4(0, 0, 0, s) == s
  {
    AddZero(0);
    AddZero(s);
  }

  // ---------- Rounds on one word ----------

  /** f_rn: the bytes 0 to 3 come from four words. */
  function Fn(x0: bv32, x1: bv32, x2: bv32, x3: bv32, k: bv32): bv32 {
    Xor(XorFour(FtTab(0, Unpack(x0).b0), FtTab(1, Unpack(x1).b1), FtTab(2, Unpack(x2).b2), FtTab(3, Unpack(x3).b3)), k)
  }

  /** f_rl */
  function Fl(x0: bv32, x1: bv32, x2: bv32, x3: bv32, k: bv32): bv32 {
    Xor(XorFour(FlTab(0, Unpack(x0).b0), FlTab(1, Unpack(x1).b1), FlTab(2, Unpack(x2).b2), FlTab(3, Unpack(x3).b3)), k)
  }

  /** i_rn */
  function In(x0: bv32, x1: bv32, x2: bv32, x3: bv32, k: bv32): bv32 {
    Xor(XorFour(ItTab(0, Unpack(x0).b0), ItTab(1, Unpack(x1).b1), ItTab(2, Unpack(x2).b2), ItTab(3, Unpack(x3).b3)), k)
  }

  /** i_rl */
  function Il(x0: bv32, x1: bv32, x2: bv32, x3: bv32, k: bv32): bv32 {
    Xor(XorFour(IlTab(0, Unpack(x0).b0), IlTab(1, Unpack(x1).b1), IlTab(2, Unpack(x2).b2), IlTab(3, Unpack(x3).b3)), k)
  }

  function Diagonal(x0: bv32, x1: bv32, x2: bv32, x3: bv32): Column {
    Column(Unpack(x0).b0, Unpack(x1).b1, Unpack(x2).b2, Unpack(x3).b3)
  }

  lemma {:induction false} FnIsMixed(x0: bv32, x1: bv32, x2: bv32, x3: bv32, k: bv32)
    ensures Unpack(Fn(x0, x1, x2, x3, k))
            == AddColumn(MixColumn(SubColumn(Diagonal(x0, x1, x2, x3))), Unpack(k))
  {
    var d := SubColumn(Diagonal(x0, x1, x2, x3));
    UnpackXorFour(Column(Times2(d.b0), d.b0, d.b0, Times3(d.b0)), Column(Times3(d.b1), Times2(d.b1), d.b1, d.b1),
                  Column(d.b2, Times3(d.b2), Times2(d.b2), d.b2), Column(d.b3, d.b3, Times3(d.b3), Times2(d.b3)));
    UnpackXor(XorFour(FtTab(0, Unpack(x0).b0), FtTab(1, Unpack(x1).b1),
                      FtTab(2, Unpack(x2).b2), FtTab(3, Unpack(x3).b3)), k);
  }

  lemma {:induction false} FlIsSubstituted(x0: bv32, x1: bv32, x2: bv32, x3: bv32, k: bv32)
    ensures Unpack(Fl(x0, x1, x2, x3, k)) == AddColumn(SubColumn(Diagonal(x0, x1, x2, x3)), Unpack(k))
  {
    var d := SubColumn(Diagonal(x0, x1, x2, x3));
    UnpackXorFour(Column(d.b0, 0, 0, 0), Column(0, d.b1, 0, 0), Column(0, 0, d.b2, 0), Column(0, 0, 0, d.b3));
    Alone(d.b0);
    Alone(d.b1);
    Alone(d.b2);
    Alone(d.b3);
    UnpackXor(XorFour(FlTab(0, Unpack(x0).b0), FlTab(1, Unpack(x1).b1),
                      FlTab(2, Unpack(x2).b2), FlTab(3, Unpack(x3).b3)), k);
  }

  lemma {:induction false} InIsMixed(x0: bv32, x1: bv32, x2: bv32, x3: bv32, k: bv32)
    ensures Unpack(In(x0, x1, x2, x3, k))
            == AddColumn(InvMixColumn(InvSubColumn(Diagonal(x0, x1, x2, x3))), Unpack(k))
  {
    var d := InvSubColumn(Diagonal(x0, x1, x2, x3));
    UnpackXorFour(Column(TimesE(d.b0), Times9(d.b0), TimesD(d.b0), TimesB(d.b0)),
                  Column(TimesB(d.b1), TimesE(d.b1), Times9(d.b1), TimesD(d.b1)),
                  Column(TimesD(d.b2), TimesB(d.b2), TimesE(d.b2), Times9(d.b2)),
                  Column(Times9(d.b3), TimesD(d.b3), TimesB(d.b3), TimesE(d.b3)));
    UnpackXor(XorFour(ItTab(0, Unpack(x0).b0), ItTab(1, Unpack(x1).b1),
                      ItTab(2, Unpack(x2).b2), ItTab(3, Unpack(x3).b3)), k);
  }

  lemma {:induction false} IlIsSubstituted(x0: bv32, x1: bv32, x2: bv32, x3: bv32, k: bv32)
    ensures Unpack(Il(x0, x1, x2, x3, k)) == AddColumn(InvSubColumn(Diagonal(x0, x1, x2, x3)), Unpack(k))
  {
    var d := InvSubColumn(Diagonal(x0, x1, x2, x3));
    UnpackXorFour(Column(d.b0, 0, 0, 0), Column(0, d.b1, 0, 0), Column(0, 0, d.b2, 0), Column(0, 0, 0, d.b3));
    Alone(d.b0);
    Alone(d.b1);
    Alone(d.b2);
    Alone(d.b3);
    UnpackXor(XorFour(IlTab(0, Unpack(x0).b0), IlTab(1, Unpack(x1).b1),
                      IlTab(2, Unpack(x2).b2), IlTab(3, Unpack(x3).b3)), k);
  }

  // ---------- Words of the key schedule ----------

  /** ls_box */
  function LsBox(x: bv32): bv32 {
    XorFour(FlTab(0, Unpack(x).b0), FlTab(1, Unpack(x).b1), FlTab(2, Unpack(x).b2), FlTab(3, Unpack(x).b3))
  }

  lemma {:induction false} LsBoxSubstitutes(x: bv32)
    ensures Unpack(LsBox(x)) == SubColumn(Unpack(x))
  {
    var d := SubColumn(Unpack(x));
    UnpackXorFour(Column(d.b0, 0, 0, 0), Column(0, d.b1, 0, 0), Column(0, 0, d.b2, 0), Column(0, 0, 0, d.b3));
    Alone(d.b0);
    Alone(d.b1);
    Alone(d.b2);
    Alone(d.b3);
  }

  /** star_x: multiplication by x of the four bytes at once */
  function StarX(x: bv32): bv32 {
    ((x & 0x7f7f7f7f) << 1) ^ (((x & 0x80808080) >> 7) * 0x1b)
  }

  lemma {:induction false} StarXIsXTime(x: bv32)
    ensures var c := Unpack(x);
            Unpack(StarX(x)) == Column(XTime(c.b0), XTime(c.b1), XTime(c.b2), XTime(c.b3))
  {
  }

  /** imix_col */
  function Imix(x: bv32): bv32 {
    var u := StarX(x);
    var v := StarX(u);
    var w := StarX(v);
    var t := Xor(w, x);
    var y := Xor(Xor(u, v), w);
    Xor(y, Xor(Xor(Ror8(Xor(u, t)), Ror16(Xor(v, t))), Ror24(t)))
  }

  function BColumn(c: Column): Column {
    Column(TimesB(c.b0), TimesB(c.b1), TimesB(c.b2), TimesB(c.b3))
  }

  function DColumn(c: Column): Column {
    Column(TimesD(c.b0), TimesD(c.b1), TimesD(c.b2), TimesD(c.b3))
  }

  function EColumn(c: Column): Column {
    Column(TimesE(c.b0), TimesE(c.b1), TimesE(c.b2), TimesE(c.b3))
  }

  function NineColumn(c: Column): Column {
    Column(Times9(c.b0), Times9(c.b1), Times9(c.b2), Times9(c.b3))
  }

  lemma {:induction false} AddInto(a: bv8, b: bv8, c: bv8)
    ensures Add(a, Add(b, c)) == Add(Add(b, a), c)
  {
  }

  lemma {:induction false} PowersOfByte(b: bv8)
    ensures var u := XTime(b); var v := XTime(u); var w := XTime(v);
            && Add(w, b) == Times9(b)
            && Add(u, Add(w, b)) == TimesB(b)
            && Add(v, Add(w, b)) == TimesD(b)
            && Add(Add(u, v), w) == TimesE(b)
  {
    var u := XTime(b);
    var v := XTime(u);
    var w := XTime(v);
    TimesPowers(b);
    AddInto(u, w, b);
    AddInto(v, w, b);
    AddReverse(u, v, w);
  }

  /** The four intermediate words of imix_col. */
  lemma {:induction false} ImixParts(x: bv32)
    ensures var c := Unpack(x); var u := StarX(x); var v := StarX(u); var w := StarX(v); var t := Xor(w, x);
            && Unpack(t) == NineColumn(c)
            && Unpack(Xor(u, t)) == BColumn(c)
            && Unpack(Xor(v, t)) == DColumn(c)
            && Unpack(Xor(Xor(u, v), w)) == EColumn(c)
  {
    var c := Unpack(x);
    var u := StarX(x);
    var v := StarX(u);
    var w := StarX(v);
    var t := Xor(w, x);
    StarXIsXTime(x);
    StarXIsXTime(u);
    StarXIsXTime(v);
    UnpackXor(w, x);
    UnpackXor(u, t);
    UnpackXor(v, t);
    UnpackXor(u, v);
    UnpackXor(Xor(u, v), w);
    PowersOfByte(c.b0);
    PowersOfByte(c.b1);
    PowersOfByte(c.b2);
    PowersOfByte(c.b3);
  }

  lemma {:induction false} AddNest(a: bv8, b: bv8, c: bv8, d: bv8)
    ensures Add(a, Add(Add(b, c), d)) == Sum4(a, b, c, d)
  {
  }

  lemma {:induction false} ImixIsInvMixColumn(x: bv32)
    ensures Unpack(Imix(x)) == InvMixColumn(Unpack(x))
  {
    var c := Unpack(x);
    var u := StarX(x);
    var v := StarX(u);
    var w := StarX(v);
    var t := Xor(w, x);
    ImixParts(x);
    UnpackRor(Xor(u, t));
    UnpackRor(Xor(v, t));
    UnpackRor(t);
    UnpackXor(Ror8(Xor(u, t)), Ror16(Xor(v, t)));
    UnpackXor(Xor(Ror8(Xor(u, t)), Ror16(Xor(v, t))), Ror24(t));
    UnpackXor(Xor(Xor(u, v), w), Xor(Xor(Ror8(Xor(u, t)), Ror16(Xor(v, t))), Ror24(t)));
    AddNest(TimesE(c.b0), TimesB(c.b1), TimesD(c.b2), Times9(c.b3));
    AddNest(TimesE(c.b1), TimesB(c.b2), TimesD(c.b3), Times9(c.b0));
    AddNest(TimesE(c.b2), TimesB(c.b3), TimesD(c.b0), Times9(c.b1));
    AddNest(TimesE(c.b3), TimesB(c.b0), TimesD(c.b1), Times9(c.b2));
    Sum4Rotate(TimesE(c.b1), TimesB(c.b2), TimesD(c.b3), Times9(c.b0));
    Sum4HalfTurn(TimesE(c.b2), TimesB(c.b3), TimesD(c.b0), Times9(c.b1));
    Sum4Rotate(TimesB(c.b0), TimesD(c.b1), Times9(c.b2), TimesE(c.b3));
  }

  /** rco_tab */
  function RcoTab(i: nat): bv32
    requires i < 10
  {
    match i
    case 0 => 1
    case 1 => 2
    case 2 => 4
    case 3 => 8
    case 4 => 16
    case 5 => 32
    case 6 => 64
    case 7 => 128
    case 8 => 27
    case 9 => 54
  }

  lemma {:induction false} RcoTabIsRcon(i: nat)
    requires i < 10
    ensures Unpack(RcoTab(i)) == Rcon(i + 1)
  {
    assert Power(0) == 1;
    assert Power(1) == 2;
    assert Power(2) == 4;
    assert Power(3) == 8;
    assert Power(4) == 16;
    assert Power(5) == 32;
    assert Power(6) == 64;
    assert Power(7) == 128;
    assert Power(8) == 27;
    assert Power(9) == 54;
  }
}

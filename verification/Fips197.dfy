/**
 The cipher of FIPS 197: the transformations of a state of four columns (section 5.1), the
 key expansion (section 5.2), the inverse cipher (section 5.3) and the equivalent inverse
 cipher (section 5.3.5); and the laws between them.
 */
module Fips197 {
  import opened Gf256

  datatype Column = Column(b0: bv8, b1: bv8, b2: bv8, b3: bv8)

  // Byte r of column c is the element of row r and column c of the state.
  datatype State = State(c0: Column, c1: Column, c2: Column, c3: Column)

  // Word i of a key schedule.
  type Schedule = nat -> Column

  // ---------- Columns ----------

  function SubColumn(c: Column): Column {
    Column(Sbox(c.b0), Sbox(c.b1), Sbox(c.b2), Sbox(c.b3))
  }

  function InvSubColumn(c: Column): Column {
    Column(InvSbox(c.b0), InvSbox(c.b1), InvSbox(c.b2), InvSbox(c.b3))
  }

  function AddColumn(c: Column, k: Column): Column {
    Column(Add(c.b0, k.b0), Add(c.b1, k.b1), Add(c.b2, k.b2), Add(c.b3, k.b3))
  }

  /** Equation 5.6 */
  function MixColumn(c: Column): Column {
    Column(Sum4(Times2(c.b0), Times3(c.b1), c.b2, c.b3),
           Sum4(c.b0, Times2(c.b1), Times3(c.b2), c.b3),
           Sum4(c.b0, c.b1, Times2(c.b2), Times3(c.b3)),
           Sum4(Times3(c.b0), c.b1, c.b2, Times2(c.b3)))
  }

  /** Equation 5.10 */
  function InvMixColumn(c: Column): Column {
    Column(Sum4(TimesE(c.b0), TimesB(c.b1), TimesD(c.b2), Times9(c.b3)),
           Sum4(Times9(c.b0), TimesE(c.b1), TimesB(c.b2), TimesD(c.b3)),
           Sum4(TimesD(c.b0), Times9(c.b1), TimesE(c.b2), TimesB(c.b3)),
           Sum4(TimesB(c.b0), TimesD(c.b1), Times9(c.b2), TimesE(c.b3)))
  }

  // ---------- The state ----------

  function SubBytes(s: State): State {
    State(SubColumn(s.c0), SubColumn(s.c1), SubColumn(s.c2), SubColumn(s.c3))
  }

  function InvSubBytes(s: State): State {
    State(InvSubColumn(s.c0), InvSubColumn(s.c1), InvSubColumn(s.c2), InvSubColumn(s.c3))
  }

  /** Row r moves left by r columns. */
  function ShiftRows(s: State): State {
    State(Column(s.c0.b0, s.c1.b1, s.c2.b2, s.c3.b3),
          Column(s.c1.b0, s.c2.b1, s.c3.b2, s.c0.b3),
          Column(s.c2.b0, s.c3.b1, s.c0.b2, s.c1.b3),
          Column(s.c3.b0, s.c0.b1, s.c1.b2, s.c2.b3))
  }

  /** Row r moves right by r columns. */
  function InvShiftRows(s: State): State {
    State(Column(s.c0.b0, s.c3.b1, s.c2.b2, s.c1.b3),
          Column(s.c1.b0, s.c0.b1, s.c3.b2, s.c2.b3),
          Column(s.c2.b0, s.c1.b1, s.c0.b2, s.c3.b3),
          Column(s.c3.b0, s.c2.b1, s.c1.b2, s.c0.b3))
  }

  function MixColumns(s: State): State {
    State(MixColumn(s.c0), MixColumn(s.c1), MixColumn(s.c2), MixColumn(s.c3))
  }

  function InvMixColumns(s: State): State {
    State(InvMixColumn(s.c0), InvMixColumn(s.c1), InvMixColumn(s.c2), InvMixColumn(s.c3))
  }

  function AddRoundKey(s: State, k: State): State {
    State(AddColumn(s.c0, k.c0), AddColumn(s.c1, k.c1), AddColumn(s.c2, k.c2), AddColumn(s.c3, k.c3))
  }

  function RoundKey(w: Schedule, round: nat): State {
    State(w(4 * round), w(4 * round + 1), w(4 * round + 2), w(4 * round + 3))
  }

  // ---------- Key expansion (section 5.2) ----------

  function RotWord(c: Column): Column {
    Column(c.b1, c.b2, c.b3, c.b0)
  }

  function Power(j: nat): bv8 {
    if j == 0 then 1 else XTime(Power(j - 1))
  }

  function Rcon(j: nat): Column
    requires j > 0
  {
    Column(Power(j - 1), 0, 0, 0)
  }

  /** Word i of the expansion of a key of nk words. */
  function KeyWord(key: seq<bv8>, nk: nat, i: nat): Column
    requires 0 < nk && |key| == 4 * nk
    decreases i
  {
    if i < nk then Column(key[4 * i], key[4 * i + 1], key[4 * i + 2], key[4 * i + 3])
    else
      var temp := KeyWord(key, nk, i - 1);
      AddColumn(KeyWord(key, nk, i - nk),
                if i % nk == 0 then AddColumn(SubColumn(RotWord(temp)), Rcon(i / nk))
                else if nk > 6 && i % nk == 4 then SubColumn(temp)
                else temp)
  }

  function KeyExpansion(key: seq<bv8>, nk: nat): Schedule
    requires 0 < nk && |key| == 4 * nk
  {
    (i: nat) => KeyWord(key, nk, i)
  }

  // ---------- Rounds ----------

  type RoundFunction = (State, State) -> State

  /** Rounds with the keys 1 to n. */
  function Ascend(f: RoundFunction, w: Schedule, start: State, n: nat): State {
    if n == 0 then start else f(Ascend(f, w, start, n - 1), RoundKey(w, n))
  }

  /** Rounds with the keys nr - 1 down to nr - n. */
  function Descend(g: RoundFunction, w: Schedule, nr: nat, start: State, n: nat): State
    requires n <= nr
  {
    if n == 0 then start else g(Descend(g, w, nr, start, n - 1), RoundKey(w, nr - n))
  }

  // ---------- The cipher (section 5.1) ----------

  function Round(s: State, k: State): State {
    AddRoundKey(MixColumns(ShiftRows(SubBytes(s))), k)
  }

  function FinalRound(s: State, k: State): State {
    AddRoundKey(ShiftRows(SubBytes(s)), k)
  }

  function Cipher(w: Schedule, nr: nat, input: State): State
    requires nr > 0
  {
    FinalRound(Ascend(Round, w, AddRoundKey(input, RoundKey(w, 0)), nr - 1), RoundKey(w, nr))
  }

  // ---------- The inverse cipher (section 5.3) ----------

  function InvRound(s: State, k: State): State {
    InvMixColumns(AddRoundKey(InvSubBytes(InvShiftRows(s)), k))
  }

  function InvFinalRound(s: State, k: State): State {
    AddRoundKey(InvSubBytes(InvShiftRows(s)), k)
  }

  function InvCipher(w: Schedule, nr: nat, input: State): State
    requires nr > 0
  {
    InvFinalRound(Descend(InvRound, w, nr, AddRoundKey(input, RoundKey(w, nr)), nr - 1), RoundKey(w, 0))
  }

  // ---------- The equivalent inverse cipher (section 5.3.5) ----------

  function EqRound(s: State, k: State): State {
    AddRoundKey(InvMixColumns(InvShiftRows(InvSubBytes(s))), k)
  }

  function EqFinalRound(s: State, k: State): State {
    AddRoundKey(InvShiftRows(InvSubBytes(s)), k)
  }

  function EqInvCipher(dw: Schedule, nr: nat, input: State): State
    requires nr > 0
  {
    EqFinalRound(Descend(EqRound, dw, nr, AddRoundKey(input, RoundKey(dw, nr)), nr - 1), RoundKey(dw, 0))
  }

  /** The schedule of the equivalent inverse cipher: the inner round keys are mixed. */
  predicate MixedSchedule(dw: Schedule, w: Schedule, nr: nat) {
    && RoundKey(dw, 0) == RoundKey(w, 0)
    && RoundKey(dw, nr) == RoundKey(w, nr)
    && forall r :: 0 < r < nr ==> RoundKey(dw, r) == InvMixColumns(RoundKey(w, r))
  }

  // ---------- Each transformation is undone ----------

  lemma {:induction false} SubColumnUndone(c: Column)
    ensures InvSubColumn(SubColumn(c)) == c
  {
    SboxRoundTrip(c.b0);
    SboxRoundTrip(c.b1);
    SboxRoundTrip(c.b2);
    SboxRoundTrip(c.b3);
  }

  lemma {:induction false} SubBytesUndone(s: State)
    ensures InvSubBytes(SubBytes(s)) == s
  {
    SubColumnUndone(s.c0);
    SubColumnUndone(s.c1);
    SubColumnUndone(s.c2);
    SubColumnUndone(s.c3);
  }

  lemma {:induction false} ShiftRowsUndone(s: State)
    ensures InvShiftRows(ShiftRows(s)) == s
  {
  }

  lemma {:induction false} AddColumnUndone(c: Column, k: Column)
    ensures AddColumn(AddColumn(c, k), k) == c
  {
    AddAddSame(c.b0, k.b0);
    AddAddSame(c.b1, k.b1);
    AddAddSame(c.b2, k.b2);
    AddAddSame(c.b3, k.b3);
  }

  lemma {:induction false} AddRoundKeyUndone(s: State, k: State)
    ensures AddRoundKey(AddRoundKey(s, k), k) == s
  {
    AddColumnUndone(s.c0, k.c0);
    AddColumnUndone(s.c1, k.c1);
    AddColumnUndone(s.c2, k.c2);
    AddColumnUndone(s.c3, k.c3);
  }

  lemma {:induction false} MixColumnUndone(c: Column)
    ensures InvMixColumn(MixColumn(c)) == c
  {
    var m := MixColumn(c);
    FirstByteUnmixed(c.b0, c.b1, c.b2, c.b3);
    SecondByteUnmixed(c);
    ThirdByteUnmixed(c);
    FourthByteUnmixed(c);
  }

  lemma {:induction false} SecondByteUnmixed(c: Column)
    ensures InvMixColumn(MixColumn(c)).b1 == c.b1
  {
    var m := MixColumn(c);
    FirstByteUnmixed(c.b1, c.b2, c.b3, c.b0);
    Sum4Rotate(Times2(c.b1), Times3(c.b2), c.b3, c.b0);
    Sum4Rotate(c.b1, Times2(c.b2), Times3(c.b3), c.b0);
    Sum4Rotate(c.b1, c.b2, Times2(c.b3), Times3(c.b0));
    Sum4Rotate(Times3(c.b1), c.b2, c.b3, Times2(c.b0));
    Sum4Rotate(TimesE(m.b1), TimesB(m.b2), TimesD(m.b3), Times9(m.b0));
  }

  lemma {:induction false} ThirdByteUnmixed(c: Column)
    ensures InvMixColumn(MixColumn(c)).b2 == c.b2
  {
    var m := MixColumn(c);
    FirstByteUnmixed(c.b2, c.b3, c.b0, c.b1);
    Sum4HalfTurn(Times2(c.b2), Times3(c.b3), c.b0, c.b1);
    Sum4HalfTurn(c.b2, Times2(c.b3), Times3(c.b0), c.b1);
    Sum4HalfTurn(c.b2, c.b3, Times2(c.b0), Times3(c.b1));
    Sum4HalfTurn(Times3(c.b2), c.b3, c.b0, Times2(c.b1));
    Sum4HalfTurn(TimesE(m.b2), TimesB(m.b3), TimesD(m.b0), Times9(m.b1));
  }

  lemma {:induction false} FourthByteUnmixed(c: Column)
    ensures InvMixColumn(MixColumn(c)).b3 == c.b3
  {
    var m := MixColumn(c);
    FirstByteUnmixed(c.b3, c.b0, c.b1, c.b2);
    Sum4Rotate(c.b0, c.b1, c.b2, Times2(c.b3));
    Sum4Rotate(Times3(c.b0), c.b1, c.b2, Times2(c.b3));
    Sum4Rotate(Times2(c.b0), Times3(c.b1), c.b2, c.b3);
    Sum4Rotate(c.b0, Times2(c.b1), Times3(c.b2), c.b3);
    Sum4Rotate(c.b0, c.b1, Times2(c.b2), Times3(c.b3));
    Sum4Rotate(TimesB(m.b0), TimesD(m.b1), Times9(m.b2), TimesE(m.b3));
  }

  lemma {:induction false} Sum4HalfTurn(a: bv8, b: bv8, c: bv8, d: bv8)
    ensures Sum4(a, b, c, d) == Sum4(c, d, a, b)
  {
    Sum4Rotate(a, b, c, d);
    Sum4Rotate(d, a, b, c);
  }

  lemma {:induction false} MixColumnsUndone(s: State)
    ensures InvMixColumns(MixColumns(s)) == s
  {
    MixColumnUndone(s.c0);
    MixColumnUndone(s.c1);
    MixColumnUndone(s.c2);
    MixColumnUndone(s.c3);
  }

  // ---------- The inverse cipher undoes the cipher ----------

  function ShiftSub(s: State): State {
    ShiftRows(SubBytes(s))
  }

  lemma {:induction false} RoundUndone(t: State, k: State)
    ensures InvRound(ShiftSub(Round(t, k)), k) == ShiftSub(t)
  {
    var s := Round(t, k);
    ShiftRowsUndone(SubBytes(s));
    SubBytesUndone(s);
    AddRoundKeyUndone(MixColumns(ShiftRows(SubBytes(t))), k);
    MixColumnsUndone(ShiftRows(SubBytes(t)));
  }

  /** On states seen through h, one round g takes back what one round f did with the same key. */
  ghost predicate TakesBack(g: RoundFunction, f: RoundFunction, h: State -> State) {
    forall t, k {:trigger h(t), f(t, k)} :: g(h(f(t, k)), k) == h(t)
  }

  /** If g undoes f under h, then descending undoes ascending under h. */
  lemma {:induction false} DescendUndoesAscend(f: RoundFunction, g: RoundFunction, h: State -> State,
                                               w: Schedule, nr: nat, start: State, n: nat, m: nat)
    requires n + m + 1 == nr && TakesBack(g, f, h)
    ensures Descend(g, w, nr, h(Ascend(f, w, start, nr - 1)), n) == h(Ascend(f, w, start, m))
    decreases n
  {
    if n > 0 {
      DescendUndoesAscend(f, g, h, w, nr, start, n - 1, m + 1);
      assert nr - n == m + 1;
      assert h(Ascend(f, w, start, m)) == g(h(f(Ascend(f, w, start, m), RoundKey(w, m + 1))), RoundKey(w, m + 1));
    }
  }

  lemma {:induction false} EveryRoundUndone()
    ensures TakesBack(InvRound, Round, ShiftSub)
  {
    forall t, k ensures InvRound(ShiftSub(Round(t, k)), k) == ShiftSub(t) {
      RoundUndone(t, k);
    }
  }

  lemma {:induction false} AllUndone(f: RoundFunction, g: RoundFunction, h: State -> State, w: Schedule, nr: nat,
                                     start: State)
    requires nr > 0 && TakesBack(g, f, h)
    ensures Descend(g, w, nr, h(Ascend(f, w, start, nr - 1)), nr - 1) == h(start)
  {
    DescendUndoesAscend(f, g, h, w, nr, start, nr - 1, 0);
  }

  lemma {:induction false} RoundsUndone(w: Schedule, nr: nat, start: State)
    requires nr > 0
    ensures Descend(InvRound, w, nr, ShiftSub(Ascend(Round, w, start, nr - 1)), nr - 1) == ShiftSub(start)
  {
    EveryRoundUndone();
    AllUndone(Round, InvRound, ShiftSub, w, nr, start);
  }

  lemma {:induction false} InvCipherUndoesCipher(w: Schedule, nr: nat, input: State)
    requires nr > 0
    ensures InvCipher(w, nr, Cipher(w, nr, input)) == input
  {
    var start := AddRoundKey(input, RoundKey(w, 0));
    RoundsUndone(w, nr, start);
    EndsUndone(start, input, RoundKey(w, 0), Ascend(Round, w, start, nr - 1), RoundKey(w, nr));
  }

  lemma {:induction false} EndsUndone(start: State, input: State, k0: State, last: State, kn: State)
    requires start == AddRoundKey(input, k0)
    ensures InvFinalRound(ShiftSub(start), k0) == input
    ensures AddRoundKey(FinalRound(last, kn), kn) == ShiftSub(last)
  {
    ShiftRowsUndone(SubBytes(start));
    SubBytesUndone(start);
    AddRoundKeyUndone(input, k0);
    AddRoundKeyUndone(ShiftRows(SubBytes(last)), kn);
  }

  // ---------- The equivalent inverse cipher ----------

  lemma {:induction false} SubShiftCommute(s: State)
    ensures InvShiftRows(InvSubBytes(s)) == InvSubBytes(InvShiftRows(s))
  {
  }

  lemma {:induction false} InvMixColumnAdd(c: Column, k: Column)
    ensures InvMixColumn(AddColumn(c, k)) == AddColumn(InvMixColumn(c), InvMixColumn(k))
  {
    TimesAdd(c.b0, k.b0);
    TimesAdd(c.b1, k.b1);
    TimesAdd(c.b2, k.b2);
    TimesAdd(c.b3, k.b3);
    Sum4Add(TimesE(c.b0), TimesB(c.b1), TimesD(c.b2), Times9(c.b3),
            TimesE(k.b0), TimesB(k.b1), TimesD(k.b2), Times9(k.b3));
    Sum4Add(Times9(c.b0), TimesE(c.b1), TimesB(c.b2), TimesD(c.b3),
            Times9(k.b0), TimesE(k.b1), TimesB(k.b2), TimesD(k.b3));
    Sum4Add(TimesD(c.b0), Times9(c.b1), TimesE(c.b2), TimesB(c.b3),
            TimesD(k.b0), Times9(k.b1), TimesE(k.b2), TimesB(k.b3));
    Sum4Add(TimesB(c.b0), TimesD(c.b1), Times9(c.b2), TimesE(c.b3),
            TimesB(k.b0), TimesD(k.b1), Times9(k.b2), TimesE(k.b3));
  }

  lemma {:induction false} TimesAdd(x: bv8, y: bv8)
    ensures Times9(Add(x, y)) == Add(Times9(x), Times9(y))
    ensures TimesB(Add(x, y)) == Add(TimesB(x), TimesB(y))
    ensures TimesD(Add(x, y)) == Add(TimesD(x), TimesD(y))
    ensures TimesE(Add(x, y)) == Add(TimesE(x), TimesE(y))
  {
    Times9Add(x, y);
    TimesBAdd(x, y);
    TimesDAdd(x, y);
    TimesEAdd(x, y);
  }

  lemma {:induction false} InvMixColumnsAdd(s: State, k: State)
    ensures InvMixColumns(AddRoundKey(s, k)) == AddRoundKey(InvMixColumns(s), InvMixColumns(k))
  {
    InvMixColumnAdd(s.c0, k.c0);
    InvMixColumnAdd(s.c1, k.c1);
    InvMixColumnAdd(s.c2, k.c2);
    InvMixColumnAdd(s.c3, k.c3);
  }

  lemma {:induction false} EqRoundAgrees(s: State, k: State)
    ensures EqRound(s, InvMixColumns(k)) == InvRound(s, k)
  {
    SubShiftCommute(s);
    InvMixColumnsAdd(InvSubBytes(InvShiftRows(s)), k);
  }

  ghost predicate AgreeUnder(g: RoundFunction, g': RoundFunction, mix: State -> State) {
    forall s, k {:trigger g(s, k), mix(k)} :: g'(s, mix(k)) == g(s, k)
  }

  /** Two round functions that agree under a change of keys descend alike. */
  lemma {:induction false} DescendAgrees(g: RoundFunction, g': RoundFunction, mix: State -> State,
                                         dw: Schedule, w: Schedule, nr: nat, start: State, n: nat)
    requires n < nr
    requires AgreeUnder(g, g', mix)
    requires forall r :: 0 < r < nr ==> RoundKey(dw, r) == mix(RoundKey(w, r))
    ensures Descend(g', dw, nr, start, n) == Descend(g, w, nr, start, n)
  {
    if n > 0 {
      DescendAgrees(g, g', mix, dw, w, nr, start, n - 1);
    }
  }

  lemma {:induction false} EveryRoundAgrees()
    ensures AgreeUnder(InvRound, EqRound, InvMixColumns)
  {
    forall s, k ensures EqRound(s, InvMixColumns(k)) == InvRound(s, k) {
      EqRoundAgrees(s, k);
    }
  }

  lemma {:induction false} AllAgree(g: RoundFunction, g': RoundFunction, mix: State -> State,
                 dw: Schedule, w: Schedule, nr: nat, start: State)
    requires nr > 0 && AgreeUnder(g, g', mix)
    requires forall r :: 0 < r < nr ==> RoundKey(dw, r) == mix(RoundKey(w, r))
    ensures Descend(g', dw, nr, start, nr - 1) == Descend(g, w, nr, start, nr - 1)
  {
    DescendAgrees(g, g', mix, dw, w, nr, start, nr - 1);
  }

  lemma {:induction false} EqRoundsAgree(dw: Schedule, w: Schedule, nr: nat, start: State)
    requires nr > 0 && MixedSchedule(dw, w, nr)
    ensures Descend(EqRound, dw, nr, start, nr - 1) == Descend(InvRound, w, nr, start, nr - 1)
  {
    EveryRoundAgrees();
    AllAgree(InvRound, EqRound, InvMixColumns, dw, w, nr, start);
  }

  /** Section 5.3.5: with the mixed schedule the two inverse ciphers agree. */
  lemma {:induction false} EquivalentInverse(dw: Schedule, w: Schedule, nr: nat, input: State)
    requires nr > 0 && MixedSchedule(dw, w, nr)
    ensures EqInvCipher(dw, nr, input) == InvCipher(w, nr, input)
  {
    var start := AddRoundKey(input, RoundKey(w, nr));
    EqRoundsAgree(dw, w, nr, start);
    SubShiftCommute(Descend(InvRound, w, nr, start, nr - 1));
  }
}

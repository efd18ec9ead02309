/**
 The AES implementation: a context whose two key schedules are filled in place, and the
 encryption and decryption of one block by table lookups.  They compute the key expansion,
 the cipher and the equivalent inverse cipher of FIPS 197, and decryption undoes encryption.
 */
module AesGeneric {
  import opened Gf256
  import opened Fips197
  import opened AesWords

  // The four words of a block, as b0 and b1 hold them.
  datatype Block = Block(w0: bv32, w1: bv32, w2: bv32, w3: bv32)

  function StateOf(b: Block): State {
    State(Unpack(b.w0), Unpack(b.w1), Unpack(b.w2), Unpack(b.w3))
  }

  function XorBlock(b: Block, k: Block): Block {
    Block(Xor(b.w0, k.w0), Xor(b.w1, k.w1), Xor(b.w2, k.w2), Xor(b.w3, k.w3))
  }

  /** f_nround */
  function NormalRound(b: Block, k: Block): Block {
    Block(Fn(b.w0, b.w1, b.w2, b.w3, k.w0), Fn(b.w1, b.w2, b.w3, b.w0, k.w1),
          Fn(b.w2, b.w3, b.w0, b.w1, k.w2), Fn(b.w3, b.w0, b.w1, b.w2, k.w3))
  }

  /** f_lround */
  function LastRound(b: Block, k: Block): Block {
    Block(Fl(b.w0, b.w1, b.w2, b.w3, k.w0), Fl(b.w1, b.w2, b.w3, b.w0, k.w1),
          Fl(b.w2, b.w3, b.w0, b.w1, k.w2), Fl(b.w3, b.w0, b.w1, b.w2, k.w3))
  }

  /** i_nround */
  function InvNormalRound(b: Block, k: Block): Block {
    Block(In(b.w0, b.w3, b.w2, b.w1, k.w0), In(b.w1, b.w0, b.w3, b.w2, k.w1),
          In(b.w2, b.w1, b.w0, b.w3, k.w2), In(b.w3, b.w2, b.w1, b.w0, k.w3))
  }

  /** i_lround */
  function InvLastRound(b: Block, k: Block): Block {
    Block(Il(b.w0, b.w3, b.w2, b.w1, k.w0), Il(b.w1, b.w0, b.w3, b.w2, k.w1),
          Il(b.w2, b.w1, b.w0, b.w3, k.w2), Il(b.w3, b.w2, b.w1, b.w0, k.w3))
  }

  // ---------- The table rounds are the rounds of the standard ----------

  lemma {:induction false} XorBlockAddsKey(b: Block, k: Block)
    ensures StateOf(XorBlock(b, k)) == AddRoundKey(StateOf(b), StateOf(k))
  {
    UnpackXor(b.w0, k.w0);
    UnpackXor(b.w1, k.w1);
    UnpackXor(b.w2, k.w2);
    UnpackXor(b.w3, k.w3);
  }

  lemma {:induction false} NormalRoundIsRound(b: Block, k: Block)
    ensures StateOf(NormalRound(b, k)) == Round(StateOf(b), StateOf(k))
  {
    FnIsMixed(b.w0, b.w1, b.w2, b.w3, k.w0);
    FnIsMixed(b.w1, b.w2, b.w3, b.w0, k.w1);
    FnIsMixed(b.w2, b.w3, b.w0, b.w1, k.w2);
    FnIsMixed(b.w3, b.w0, b.w1, b.w2, k.w3);
  }

  lemma {:induction false} LastRoundIsFinal(b: Block, k: Block)
    ensures StateOf(LastRound(b, k)) == FinalRound(StateOf(b), StateOf(k))
  {
    FlIsSubstituted(b.w0, b.w1, b.w2, b.w3, k.w0);
    FlIsSubstituted(b.w1, b.w2, b.w3, b.w0, k.w1);
    FlIsSubstituted(b.w2, b.w3, b.w0, b.w1, k.w2);
    FlIsSubstituted(b.w3, b.w0, b.w1, b.w2, k.w3);
  }

  lemma {:induction false} InvNormalRoundIsEqRound(b: Block, k: Block)
    ensures StateOf(InvNormalRound(b, k)) == EqRound(StateOf(b), StateOf(k))
  {
    InIsMixed(b.w0, b.w3, b.w2, b.w1, k.w0);
    InIsMixed(b.w1, b.w0, b.w3, b.w2, k.w1);
    InIsMixed(b.w2, b.w1, b.w0, b.w3, k.w2);
    InIsMixed(b.w3, b.w2, b.w1, b.w0, k.w3);
  }

  lemma {:induction false} InvLastRoundIsFinal(b: Block, k: Block)
    ensures StateOf(InvLastRound(b, k)) == EqFinalRound(StateOf(b), StateOf(k))
  {
    IlIsSubstituted(b.w0, b.w3, b.w2, b.w1, k.w0);
    IlIsSubstituted(b.w1, b.w0, b.w3, b.w2, k.w1);
    IlIsSubstituted(b.w2, b.w1, b.w0, b.w3, k.w2);
    IlIsSubstituted(b.w3, b.w2, b.w1, b.w0, k.w3);
  }

  // ---------- Blocks of bytes ----------

  /** Four words loaded little-endian. */
  function Load(bytes: seq<bv8>): (b: Block)
    requires |bytes| == 16
  {
    Block(Pack(Column(bytes[0], bytes[1], bytes[2], bytes[3])),
          Pack(Column(bytes[4], bytes[5], bytes[6], bytes[7])),
          Pack(Column(bytes[8], bytes[9], bytes[10], bytes[11])),
          Pack(Column(bytes[12], bytes[13], bytes[14], bytes[15])))
  }

  function Bytes(c: Column): seq<bv8> {
    [c.b0, c.b1, c.b2, c.b3]
  }

  /** The state of section 3.4: byte r + 4c of the input is row r of column c. */
  function InputState(bytes: seq<bv8>): State
    requires |bytes| == 16
  {
    State(Column(bytes[0], bytes[1], bytes[2], bytes[3]), Column(bytes[4], bytes[5], bytes[6], bytes[7]),
          Column(bytes[8], bytes[9], bytes[10], bytes[11]), Column(bytes[12], bytes[13], bytes[14], bytes[15]))
  }

  function OutputBytes(s: State): (bytes: seq<bv8>)
    ensures |bytes| == 16 && InputState(bytes) == s
  {
    Bytes(s.c0) + Bytes(s.c1) + Bytes(s.c2) + Bytes(s.c3)
  }

  lemma {:induction false} LoadIsInput(bytes: seq<bv8>)
    requires |bytes| == 16
    ensures StateOf(Load(bytes)) == InputState(bytes)
  {
    UnpackPack(Column(bytes[0], bytes[1], bytes[2], bytes[3]));
    UnpackPack(Column(bytes[4], bytes[5], bytes[6], bytes[7]));
    UnpackPack(Column(bytes[8], bytes[9], bytes[10], bytes[11]));
    UnpackPack(Column(bytes[12], bytes[13], bytes[14], bytes[15]));
  }

  lemma {:induction false} InputOutput(bytes: seq<bv8>)
    requires |bytes| == 16
    ensures OutputBytes(InputState(bytes)) == bytes
  {
  }

  // ---------- Schedules held in arrays ----------

  function KeyBlock(e: seq<bv32>, kp: nat): Block
    requires kp + 4 <= |e|
  {
    Block(e[kp], e[kp + 1], e[kp + 2], e[kp + 3])
  }

  function EncSchedule(e: seq<bv32>): Schedule {
    (i: nat) => if i < |e| then Unpack(e[i]) else Column(0, 0, 0, 0)
  }

  /** key_dec is used from its start, so its round keys are those of the schedule backwards. */
  function DecSchedule(d: seq<bv32>, nr: nat): Schedule {
    (i: nat) => if i / 4 <= nr && 4 * (nr - i / 4) + i % 4 < |d| then Unpack(d[4 * (nr - i / 4) + i % 4])
                else Column(0, 0, 0, 0)
  }

  lemma {:induction false} EncRoundKey(e: seq<bv32>, r: nat, kp: nat)
    requires kp == 4 * r && kp + 4 <= |e|
    ensures RoundKey(EncSchedule(e), r) == StateOf(KeyBlock(e, kp))
  {
  }

  lemma {:induction false} DividedByFour(r: nat)
    ensures 4 * r / 4 == r && (4 * r + 1) / 4 == r && (4 * r + 2) / 4 == r && (4 * r + 3) / 4 == r
    ensures 4 * r % 4 == 0 && (4 * r + 1) % 4 == 1 && (4 * r + 2) % 4 == 2 && (4 * r + 3) % 4 == 3
  {
  }

  lemma {:induction false} DecRoundKey(d: seq<bv32>, nr: nat, r: nat, kp: nat)
    requires r <= nr && kp == 4 * (nr - r) && kp + 4 <= |d|
    ensures RoundKey(DecSchedule(d, nr), r) == StateOf(KeyBlock(d, kp))
  {
    DividedByFour(r);
  }

  // ---------- Steps of the expansion ----------

  /** The first n words of e are those of the expansion of the key. */
  ghost predicate Filled(e: seq<bv32>, key: seq<bv8>, nk: nat, n: nat)
    requires 0 < nk && |key| == 4 * nk
  {
    n <= |e| && forall i :: 0 <= i < n ==> Unpack(e[i]) == KeyWord(key, nk, i)
  }

  lemma {:induction false} AddColumnCommutes(c: Column, k: Column)
    ensures AddColumn(c, k) == AddColumn(k, c)
  {
    AddCommutes(c.b0, k.b0);
    AddCommutes(c.b1, k.b1);
    AddCommutes(c.b2, k.b2);
    AddCommutes(c.b3, k.b3);
  }

  /** Word n starts group i + 1. */
  ghost predicate FirstAt(nk: nat, i: nat, n: nat) {
    0 < nk <= n && n % nk == 0 && n / nk == i + 1
  }

  /** Word n neither starts a group nor lies in the middle of a group of eight. */
  ghost predicate PlainAt(nk: nat, n: nat) {
    0 < nk <= n && n % nk != 0 && !(nk > 6 && n % nk == 4)
  }

  lemma {:induction false} GroupOf4(i: nat)
    ensures FirstAt(4, i, 4 * i + 4) && PlainAt(4, 4 * i + 5) && PlainAt(4, 4 * i + 6) && PlainAt(4, 4 * i + 7)
  {
  }

  lemma {:induction false} GroupOf6(i: nat)
    ensures FirstAt(6, i, 6 * i + 6) && PlainAt(6, 6 * i + 7) && PlainAt(6, 6 * i + 8) && PlainAt(6, 6 * i + 9)
    ensures PlainAt(6, 6 * i + 10) && PlainAt(6, 6 * i + 11)
  {
  }

  lemma {:induction false} GroupOf8(i: nat)
    ensures FirstAt(8, i, 8 * i + 8) && PlainAt(8, 8 * i + 9) && PlainAt(8, 8 * i + 10) && PlainAt(8, 8 * i + 11)
    ensures (8 * i + 12) % 8 == 4 && PlainAt(8, 8 * i + 13) && PlainAt(8, 8 * i + 14) && PlainAt(8, 8 * i + 15)
  {
  }

  /** t ^= key_enc[n - nk], for a word that is not the first of its group. */
  lemma {:induction false} PlainWord(e: seq<bv32>, key: seq<bv8>, nk: nat, n: nat)
    requires PlainAt(nk, n) && |key| == 4 * nk && Filled(e, key, nk, n)
    ensures Unpack(Xor(e[n - 1], e[n - nk])) == KeyWord(key, nk, n)
  {
    UnpackXor(e[n - 1], e[n - nk]);
    AddColumnCommutes(Unpack(e[n - 1]), Unpack(e[n - nk]));
  }

  /** The word at the start of group i + 1. */
  lemma {:induction false} GroupWord(e: seq<bv32>, key: seq<bv8>, nk: nat, i: nat, n: nat)
    requires FirstAt(nk, i, n) && i < 10
    requires |key| == 4 * nk && Filled(e, key, nk, n)
    ensures Unpack(Xor(Xor(LsBox(Ror8(e[n - 1])), RcoTab(i)), e[n - nk])) == KeyWord(key, nk, n)
  {
    var t := Ror8(e[n - 1]);
    UnpackRor(e[n - 1]);
    LsBoxSubstitutes(t);
    RcoTabIsRcon(i);
    UnpackXor(LsBox(t), RcoTab(i));
    UnpackXor(Xor(LsBox(t), RcoTab(i)), e[n - nk]);
    AddColumnCommutes(Unpack(Xor(LsBox(t), RcoTab(i))), Unpack(e[n - nk]));
  }

  lemma {:induction false} SubstitutedSum(x: bv32, y: bv32)
    ensures Unpack(Xor(x, LsBox(y))) == AddColumn(Unpack(x), SubColumn(Unpack(y)))
  {
    LsBoxSubstitutes(y);
    UnpackXor(x, LsBox(y));
  }

  /** The extra substitution in the middle of a group of eight. */
  lemma {:induction false} MiddleWord(e: seq<bv32>, key: seq<bv8>, nk: nat, n: nat)
    requires 6 < nk <= n && n % nk == 4 && |key| == 4 * nk && Filled(e, key, nk, n)
    ensures Unpack(Xor(e[n - nk], LsBox(e[n - 1]))) == KeyWord(key, nk, n)
  {
    MiddleKeyWord(key, nk, n);
    SubstitutedSum(e[n - nk], e[n - 1]);
  }

  lemma {:induction false} MiddleKeyWord(key: seq<bv8>, nk: nat, n: nat)
    requires 6 < nk <= n && n % nk == 4 && |key| == 4 * nk
    ensures KeyWord(key, nk, n) == AddColumn(KeyWord(key, nk, n - nk), SubColumn(KeyWord(key, nk, n - 1)))
  {
  }

  // ---------- What the two schedules hold ----------

  function Rounds(nk: nat): nat {
    nk + 6
  }

  predicate KeySize(n: nat) {
    n == 16 || n == 24 || n == 32
  }

  /** The word of key_dec for word i of the expansion. */
  ghost function DecWord(key: seq<bv8>, nk: nat, i: nat): Column
    requires 0 < nk && |key| == 4 * nk
  {
    if i < 4 || 4 * Rounds(nk) <= i then KeyWord(key, nk, i) else InvMixColumn(KeyWord(key, nk, i))
  }

  /** Where word i of the expansion goes in key_dec: the round keys are in reverse order. */
  function DecPlace(nk: nat, i: nat): (j: nat)
    requires i < 4 * (Rounds(nk) + 1)
    ensures j < 4 * (Rounds(nk) + 1)
  {
    4 * (Rounds(nk) - i / 4) + i % 4
  }

  /** The part of key_dec written so far: the outer round keys and the words below i. */
  ghost predicate DecFilled(d: seq<bv32>, key: seq<bv8>, nk: nat, i: nat)
    requires 0 < nk && |key| == 4 * nk && 4 * (Rounds(nk) + 1) <= |d|
  {
    forall k :: 0 <= k < 4 * (Rounds(nk) + 1) && (k < i || 4 * Rounds(nk) <= k) ==>
      Unpack(d[DecPlace(nk, k)]) == DecWord(key, nk, k)
  }

  /** The two schedules of a key of nk words. */
  ghost predicate Expanded(e: seq<bv32>, d: seq<bv32>, key: seq<bv8>, nk: nat)
    requires 0 < nk && |key| == 4 * nk && 4 * (Rounds(nk) + 1) <= |d|
  {
    Filled(e, key, nk, 4 * (Rounds(nk) + 1)) && DecFilled(d, key, nk, 4 * (Rounds(nk) + 1))
  }

  // ---------- The cipher under a key ----------

  lemma {:induction false} AscendSame(f: RoundFunction, w: Schedule, w': Schedule, start: State, n: nat)
    requires forall r :: 0 < r <= n ==> RoundKey(w, r) == RoundKey(w', r)
    ensures Ascend(f, w, start, n) == Ascend(f, w', start, n)
  {
    if n > 0 {
      AscendSame(f, w, w', start, n - 1);
    }
  }

  lemma {:induction false} CipherSame(w: Schedule, w': Schedule, nr: nat, input: State)
    requires nr > 0 && forall r :: 0 <= r <= nr ==> RoundKey(w, r) == RoundKey(w', r)
    ensures Cipher(w, nr, input) == Cipher(w', nr, input)
  {
    AscendSame(Round, w, w', AddRoundKey(input, RoundKey(w, 0)), nr - 1);
  }

  /** Encryption of a block as FIPS 197 defines it. */
  function EncryptBlock(key: seq<bv8>, block: seq<bv8>): (r: seq<bv8>)
    requires KeySize(|key|) && |block| == 16
    ensures |r| == 16
  {
    var nk := |key| / 4;
    OutputBytes(Cipher(KeyExpansion(key, nk), Rounds(nk), InputState(block)))
  }

  /** Decryption of a block by the inverse cipher of section 5.3. */
  function DecryptBlock(key: seq<bv8>, block: seq<bv8>): (r: seq<bv8>)
    requires KeySize(|key|) && |block| == 16
    ensures |r| == 16
  {
    var nk := |key| / 4;
    OutputBytes(InvCipher(KeyExpansion(key, nk), Rounds(nk), InputState(block)))
  }

  lemma {:induction false} DecryptUndoesEncrypt(key: seq<bv8>, block: seq<bv8>)
    requires KeySize(|key|) && |block| == 16
    ensures DecryptBlock(key, EncryptBlock(key, block)) == block
  {
    var nk := |key| / 4;
    InvCipherUndoesCipher(KeyExpansion(key, nk), Rounds(nk), InputState(block));
    InputOutput(block);
  }

  lemma {:induction false} EncKeysAgree(e: seq<bv32>, key: seq<bv8>, nk: nat, nr: nat, r: nat)
    requires 0 < nk && |key| == 4 * nk && Filled(e, key, nk, 4 * (nr + 1)) && r <= nr
    ensures RoundKey(EncSchedule(e), r) == RoundKey(KeyExpansion(key, nk), r)
  {
    EncRoundKey(e, r, 4 * r);
  }

  /** The array of encryption keys gives the cipher of the key. */
  lemma {:induction false} EncArrayIsCipher(e: seq<bv32>, key: seq<bv8>, nk: nat, nr: nat, input: State)
    requires 0 < nk && |key| == 4 * nk && 0 < nr && Filled(e, key, nk, 4 * (nr + 1))
    ensures Cipher(EncSchedule(e), nr, input) == Cipher(KeyExpansion(key, nk), nr, input)
  {
    forall r: nat | r <= nr
      ensures RoundKey(EncSchedule(e), r) == RoundKey(KeyExpansion(key, nk), r)
    {
      EncKeysAgree(e, key, nk, nr, r);
    }
    CipherSame(EncSchedule(e), KeyExpansion(key, nk), nr, input);
  }

  lemma {:induction false} DecKeyAt(d: seq<bv32>, key: seq<bv8>, nk: nat, i: nat)
    requires 0 < nk && |key| == 4 * nk && 4 * (Rounds(nk) + 1) <= |d| && DecFilled(d, key, nk, 4 * (Rounds(nk) + 1))
    requires i < 4 * (Rounds(nk) + 1)
    ensures DecSchedule(d, Rounds(nk))(i) == DecWord(key, nk, i)
  {
    assert DecPlace(nk, i) == 4 * (Rounds(nk) - i / 4) + i % 4;
  }

  /** Word by word, the inner round keys are mixed and the two outer ones are not. */
  ghost predicate MixedWords(dw: Schedule, w: Schedule, nr: nat) {
    && (forall i :: 4 <= i < 4 * nr ==> dw(i) == InvMixColumn(w(i)))
    && (forall i :: 0 <= i < 4 || 4 * nr <= i < 4 * nr + 4 ==> dw(i) == w(i))
  }

  lemma {:induction false} InnerKeyMixed(dw: Schedule, w: Schedule, nr: nat, r: nat)
    requires MixedWords(dw, w, nr) && 0 < r < nr
    ensures RoundKey(dw, r) == InvMixColumns(RoundKey(w, r))
  {
  }

  lemma {:induction false} WordsMixSchedule(dw: Schedule, w: Schedule, nr: nat)
    requires MixedWords(dw, w, nr)
    ensures MixedSchedule(dw, w, nr)
  {
    forall r: nat | 0 < r < nr
      ensures RoundKey(dw, r) == InvMixColumns(RoundKey(w, r))
    {
      InnerKeyMixed(dw, w, nr, r);
    }
  }

  /** The array of decryption keys gives the inverse cipher of the key. */
  lemma {:induction false} DecArrayIsInvCipher(d: seq<bv32>, key: seq<bv8>, nk: nat, nr: nat, input: State)
    requires 0 < nk && |key| == 4 * nk && nr == Rounds(nk) && 4 * (nr + 1) <= |d| && DecFilled(d, key, nk, 4 * (nr + 1))
    ensures EqInvCipher(DecSchedule(d, nr), nr, input) == InvCipher(KeyExpansion(key, nk), nr, input)
  {
    var w, dw := KeyExpansion(key, nk), DecSchedule(d, nr);
    forall i: nat | i < 4 * (nr + 1)
      ensures dw(i) == if i < 4 || 4 * nr <= i then w(i) else InvMixColumn(w(i))
    {
      DecKeyAt(d, key, nk, i);
    }
    WordsMixSchedule(dw, w, nr);
    EquivalentInverse(dw, w, nr, input);
  }

  /** The first n words of the first and last round keys have changed places. */
  ghost predicate Swapped(e: seq<bv32>, d: seq<bv32>, keyLen: nat, n: nat) {
    && n <= 4 && keyLen + 28 <= |e| && keyLen + 28 <= |d|
    && (forall c :: 0 <= c < n ==> d[c] == e[keyLen + 24 + c])
    && (forall c :: 0 <= c < n ==> d[keyLen + 24 + c] == e[c])
  }

  lemma {:induction false} OuterPlaces(nk: nat, c: nat)
    requires c < 4
    ensures DecPlace(nk, c) == 4 * Rounds(nk) + c && DecPlace(nk, 4 * Rounds(nk) + c) == c
  {
  }

  lemma {:induction false} OuterWord(e: seq<bv32>, d: seq<bv32>, key: seq<bv8>, nk: nat, c: nat)
    requires 0 < nk && |key| == 4 * nk && 4 * (Rounds(nk) + 1) <= |d| && Filled(e, key, nk, 4 * (Rounds(nk) + 1))
    requires Swapped(e, d, |key|, 4) && c < 4
    ensures Unpack(d[DecPlace(nk, c)]) == DecWord(key, nk, c)
    ensures Unpack(d[DecPlace(nk, 4 * Rounds(nk) + c)]) == DecWord(key, nk, 4 * Rounds(nk) + c)
  {
    OuterPlaces(nk, c);
    assert d[4 * Rounds(nk) + c] == e[c] && d[c] == e[4 * Rounds(nk) + c];
  }

  lemma {:induction false} OuterWords(e: seq<bv32>, d: seq<bv32>, key: seq<bv8>, nk: nat)
    requires 0 < nk && |key| == 4 * nk && 4 * (Rounds(nk) + 1) <= |d| && Filled(e, key, nk, 4 * (Rounds(nk) + 1))
    requires Swapped(e, d, |key|, 4)
    ensures DecFilled(d, key, nk, 4)
  {
    forall k | 0 <= k < 4 * (Rounds(nk) + 1) && (k < 4 || 4 * Rounds(nk) <= k)
      ensures Unpack(d[DecPlace(nk, k)]) == DecWord(key, nk, k)
    {
      OuterWord(e, d, key, nk, if k < 4 then k else k - 4 * Rounds(nk));
    }
  }

  lemma {:induction false} DecFilledPut(d: seq<bv32>, key: seq<bv8>, nk: nat, i: nat, t: bv32)
    requires 0 < nk && |key| == 4 * nk && 4 * (Rounds(nk) + 1) <= |d| && 4 <= i < 4 * Rounds(nk)
    requires DecFilled(d, key, nk, i) && Unpack(t) == DecWord(key, nk, i)
    ensures DecFilled(d[DecPlace(nk, i) := t], key, nk, i + 1)
  {
    var d' := d[DecPlace(nk, i) := t];
    forall k | 0 <= k < 4 * (Rounds(nk) + 1) && (k < i + 1 || 4 * Rounds(nk) <= k)
      ensures Unpack(d'[DecPlace(nk, k)]) == DecWord(key, nk, k)
    {
      if k != i {
        DecPlaceInjective(nk, i, k);
      }
    }
  }

  lemma {:induction false} DecPlaceInjective(nk: nat, i: nat, k: nat)
    requires i < 4 * (Rounds(nk) + 1) && k < 4 * (Rounds(nk) + 1) && i != k
    ensures DecPlace(nk, i) != DecPlace(nk, k)
  {
    assert i == 4 * (i / 4) + i % 4 && k == 4 * (k / 4) + k % 4;
  }

  // ---------- The steps around the rounds ----------

  /** A round on words does what f does on the states they stand for. */
  ghost predicate Simulates(view: Block -> State, round: (Block, Block) -> Block, f: RoundFunction) {
    forall c, k {:trigger round(c, k)} :: view(round(c, k)) == f(view(c), view(k))
  }

  ghost predicate KeysAt(view: Block -> State, w: Schedule, e: seq<bv32>) {
    forall r: nat :: 4 * r + 4 <= |e| ==> RoundKey(w, r) == view(KeyBlock(e, 4 * r))
  }

  ghost predicate KeysBack(view: Block -> State, w: Schedule, nr: nat, d: seq<bv32>) {
    forall r: nat :: r <= nr && 4 * (nr - r) + 4 <= |d| ==> RoundKey(w, r) == view(KeyBlock(d, 4 * (nr - r)))
  }

  lemma {:induction false} EveryRound(e: seq<bv32>)
    ensures Simulates(StateOf, NormalRound, Round) && KeysAt(StateOf, EncSchedule(e), e)
  {
    forall c, k
      ensures StateOf(NormalRound(c, k)) == Round(StateOf(c), StateOf(k))
    {
      NormalRoundIsRound(c, k);
    }
    forall r: nat | 4 * r + 4 <= |e|
      ensures RoundKey(EncSchedule(e), r) == StateOf(KeyBlock(e, 4 * r))
    {
      EncRoundKey(e, r, 4 * r);
    }
  }

  lemma {:induction false} EveryInvRound(d: seq<bv32>, nr: nat)
    ensures Simulates(StateOf, InvNormalRound, EqRound) && KeysBack(StateOf, DecSchedule(d, nr), nr, d)
  {
    forall c, k
      ensures StateOf(InvNormalRound(c, k)) == EqRound(StateOf(c), StateOf(k))
    {
      InvNormalRoundIsEqRound(c, k);
    }
    forall r: nat | r <= nr && 4 * (nr - r) + 4 <= |d|
      ensures RoundKey(DecSchedule(d, nr), r) == StateOf(KeyBlock(d, 4 * (nr - r)))
    {
      DecRoundKey(d, nr, r, 4 * (nr - r));
    }
  }

  lemma {:induction false} EncryptEnds(e: seq<bv32>, input: seq<bv8>, nr: nat, b1: Block, kp: nat)
    requires |input| == 16 && 0 < nr && kp == 4 * nr && kp + 4 <= |e|
    requires StateOf(b1) == Ascend(Round, EncSchedule(e), StateOf(XorBlock(Load(input), KeyBlock(e, 0))), nr - 1)
    ensures StateOf(LastRound(b1, KeyBlock(e, kp))) == Cipher(EncSchedule(e), nr, InputState(input))
  {
    LoadIsInput(input);
    XorBlockAddsKey(Load(input), KeyBlock(e, 0));
    EncRoundKey(e, 0, 0);
    EncRoundKey(e, nr, kp);
    LastRoundIsFinal(b1, KeyBlock(e, kp));
  }

  lemma {:induction false} DecryptStart(d: seq<bv32>, input: seq<bv8>, nr: nat)
    requires |input| == 16 && 4 <= |d|
    ensures StateOf(XorBlock(Load(input), KeyBlock(d, 0)))
         == AddRoundKey(InputState(input), RoundKey(DecSchedule(d, nr), nr))
  {
    LoadIsInput(input);
    XorBlockAddsKey(Load(input), KeyBlock(d, 0));
    DecRoundKey(d, nr, nr, 0);
  }

  lemma {:induction false} DecryptEnds(d: seq<bv32>, input: seq<bv8>, nr: nat, b1: Block, kp: nat)
    requires |input| == 16 && 0 < nr && kp == 4 * nr && kp + 4 <= |d|
    requires var start := StateOf(XorBlock(Load(input), KeyBlock(d, 0)));
             StateOf(b1) == Descend(EqRound, DecSchedule(d, nr), nr, start, nr - 1)
    ensures StateOf(InvLastRound(b1, KeyBlock(d, kp))) == EqInvCipher(DecSchedule(d, nr), nr, InputState(input))
  {
    DecryptStart(d, input, nr);
    DecRoundKey(d, nr, 0, kp);
    var start := StateOf(XorBlock(Load(input), KeyBlock(d, 0)));
    FinishesInverse(DecSchedule(d, nr), nr, InputState(input), start, StateOf(b1), StateOf(KeyBlock(d, kp)));
    InvLastRoundIsFinal(b1, KeyBlock(d, kp));
  }

  lemma {:induction false} FinishesInverse(dw: Schedule, nr: nat, input: State, start: State, mid: State, last: State)
    requires 0 < nr && start == AddRoundKey(input, RoundKey(dw, nr)) && mid == Descend(EqRound, dw, nr, start, nr - 1)
    requires last == RoundKey(dw, 0)
    ensures EqFinalRound(mid, last) == EqInvCipher(dw, nr, input)
  {
  }

  // ---------- The context ----------

  const MAX_WORDS: nat := 60

  class AesContext {
    const keyEnc: array<bv32>
    const keyDec: array<bv32>
    var keyLength: nat

    ghost predicate Valid()
      reads this
    {
      keyEnc.Length == MAX_WORDS && keyDec.Length == MAX_WORDS && keyEnc != keyDec
    }

    /** The schedules are those of this key. */
    ghost predicate Keyed(key: seq<bv8>)
      requires Valid()
      reads this, keyEnc, keyDec
    {
      KeySize(|key|) && keyLength == |key| && Expanded(keyEnc[..], keyDec[..], key, |key| / 4)
    }

    constructor ()
      ensures Valid() && keyLength == 0
    {
      keyEnc := new bv32[MAX_WORDS];
      keyDec := new bv32[MAX_WORDS];
      keyLength := 0;
    }

    /** One f_nround of aes_encrypt, with the round key at kp. */
    method EncryptRound(b: Block, kp: nat, ghost view: Block -> State, ghost f: RoundFunction, ghost w: Schedule,
        ghost start: State, ghost r: nat) returns (b': Block)
      requires Valid() && r > 0 && kp == 4 * r && kp + 4 <= MAX_WORDS
      requires Simulates(view, NormalRound, f) && KeysAt(view, w, keyEnc[..])
      requires view(b) == Ascend(f, w, start, r - 1)
      ensures view(b') == Ascend(f, w, start, r)
    {
      b' := NormalRound(b, KeyBlock(keyEnc[..], kp));
      assert RoundKey(w, r) == view(KeyBlock(keyEnc[..], kp));
    }

    /** Two rounds, from b0 to b1 and back. */
    method EncryptPair(b: Block, kp: nat, ghost view: Block -> State, ghost f: RoundFunction, ghost w: Schedule,
        ghost start: State, ghost r: nat) returns (b0: Block)
      requires Valid() && r > 0 && kp == 4 * r && kp + 8 <= MAX_WORDS
      requires Simulates(view, NormalRound, f) && KeysAt(view, w, keyEnc[..])
      requires view(b) == Ascend(f, w, start, r - 1)
      ensures view(b0) == Ascend(f, w, start, r + 1)
    {
      var b1 := EncryptRound(b, kp, view, f, w, start, r);
      b0 := EncryptRound(b1, kp + 4, view, f, w, start, r + 1);
    }

    /** The nine rounds that every key size has. */
    method EncryptNine(b: Block, kp: nat, ghost view: Block -> State, ghost f: RoundFunction, ghost w: Schedule,
        ghost start: State, ghost r: nat) returns (b1: Block)
      requires Valid() && r > 0 && kp == 4 * r && kp + 36 <= MAX_WORDS
      requires Simulates(view, NormalRound, f) && KeysAt(view, w, keyEnc[..])
      requires view(b) == Ascend(f, w, start, r - 1)
      ensures view(b1) == Ascend(f, w, start, r + 8)
    {
      var b0 := EncryptPair(b, kp, view, f, w, start, r);
      b0 := EncryptPair(b0, kp + 8, view, f, w, start, r + 2);
      b0 := EncryptPair(b0, kp + 16, view, f, w, start, r + 4);
      b0 := EncryptPair(b0, kp + 24, view, f, w, start, r + 6);
      b1 := EncryptRound(b0, kp + 32, view, f, w, start, r + 8);
    }

    /** The rounds that only the longer keys have. */
    method EncryptExtra(b: Block, ghost view: Block -> State, ghost f: RoundFunction, ghost w: Schedule,
        ghost nr: nat) returns (b0: Block, kp: nat, ghost r: nat)
      requires Valid() && KeySize(keyLength) && 4 * nr == keyLength + 24
      requires Simulates(view, NormalRound, f) && KeysAt(view, w, keyEnc[..])
      ensures 0 < r && kp == 4 * r && r + 9 == nr
      ensures view(b0) == Ascend(f, w, view(b), r - 1)
    {
      b0, kp, r := b, 4, 1;
      if keyLength > 24 {
        b0 := EncryptPair(b0, kp, view, f, w, view(b), r);
        kp, r := kp + 8, r + 2;
      }
      if keyLength > 16 {
        b0 := EncryptPair(b0, kp, view, f, w, view(b), r);
        kp, r := kp + 8, r + 2;
      }
    }

    /** All the rounds but the last. */
    method EncryptRounds(b: Block, ghost view: Block -> State, ghost f: RoundFunction, ghost w: Schedule,
        ghost nr: nat) returns (b1: Block, kp: nat)
      requires Valid() && KeySize(keyLength) && 4 * nr == keyLength + 24
      requires Simulates(view, NormalRound, f) && KeysAt(view, w, keyEnc[..])
      ensures kp == 4 * nr && kp + 4 <= MAX_WORDS
      ensures view(b1) == Ascend(f, w, view(b), nr - 1)
    {
      var b0;
      ghost var r;
      b0, kp, r := EncryptExtra(b, view, f, w, nr);
      b1 := EncryptNine(b0, kp, view, f, w, view(b), r);
      kp := kp + 36;
    }

    /** One i_nround of aes_decrypt, with the round key at kp. */
    method DecryptRound(b: Block, kp: nat, ghost view: Block -> State, ghost f: RoundFunction, ghost w: Schedule,
        ghost start: State, ghost nr: nat, ghost r: nat) returns (b': Block)
      requires Valid() && 0 < r <= nr && kp == 4 * r && kp + 4 <= MAX_WORDS
      requires Simulates(view, InvNormalRound, f) && KeysBack(view, w, nr, keyDec[..])
      requires view(b) == Descend(f, w, nr, start, r - 1)
      ensures view(b') == Descend(f, w, nr, start, r)
    {
      b' := InvNormalRound(b, KeyBlock(keyDec[..], kp));
      assert RoundKey(w, nr - r) == view(KeyBlock(keyDec[..], kp));
    }

    /** Two rounds, from b0 to b1 and back. */
    method DecryptPair(b: Block, kp: nat, ghost view: Block -> State, ghost f: RoundFunction, ghost w: Schedule,
        ghost start: State, ghost nr: nat, ghost r: nat) returns (b0: Block)
      requires Valid() && 0 < r < nr && kp == 4 * r && kp + 8 <= MAX_WORDS
      requires Simulates(view, InvNormalRound, f) && KeysBack(view, w, nr, keyDec[..])
      requires view(b) == Descend(f, w, nr, start, r - 1)
      ensures view(b0) == Descend(f, w, nr, start, r + 1)
    {
      var b1 := DecryptRound(b, kp, view, f, w, start, nr, r);
      b0 := DecryptRound(b1, kp + 4, view, f, w, start, nr, r + 1);
    }

    /** The nine rounds that every key size has. */
    method DecryptNine(b: Block, kp: nat, ghost view: Block -> State, ghost f: RoundFunction, ghost w: Schedule,
        ghost start: State, ghost nr: nat, ghost r: nat) returns (b1: Block)
      requires Valid() && 0 < r && r + 8 <= nr && kp == 4 * r && kp + 36 <= MAX_WORDS
      requires Simulates(view, InvNormalRound, f) && KeysBack(view, w, nr, keyDec[..])
      requires view(b) == Descend(f, w, nr, start, r - 1)
      ensures view(b1) == Descend(f, w, nr, start, r + 8)
    {
      var b0 := DecryptPair(b, kp, view, f, w, start, nr, r);
      b0 := DecryptPair(b0, kp + 8, view, f, w, start, nr, r + 2);
      b0 := DecryptPair(b0, kp + 16, view, f, w, start, nr, r + 4);
      b0 := DecryptPair(b0, kp + 24, view, f, w, start, nr, r + 6);
      b1 := DecryptRound(b0, kp + 32, view, f, w, start, nr, r + 8);
    }

    /** The rounds that only the longer keys have. */
    method DecryptExtra(b: Block, ghost view: Block -> State, ghost f: RoundFunction, ghost w: Schedule,
        ghost nr: nat) returns (b0: Block, kp: nat, ghost r: nat)
      requires Valid() && KeySize(keyLength) && 4 * nr == keyLength + 24
      requires Simulates(view, InvNormalRound, f) && KeysBack(view, w, nr, keyDec[..])
      ensures 0 < r && kp == 4 * r && r + 9 == nr
      ensures view(b0) == Descend(f, w, nr, view(b), r - 1)
    {
      b0, kp, r := b, 4, 1;
      if keyLength > 24 {
        b0 := DecryptPair(b0, kp, view, f, w, view(b), nr, r);
        kp, r := kp + 8, r + 2;
      }
      if keyLength > 16 {
        b0 := DecryptPair(b0, kp, view, f, w, view(b), nr, r);
        kp, r := kp + 8, r + 2;
      }
    }

    /** All the rounds but the last. */
    method DecryptRounds(b: Block, ghost view: Block -> State, ghost f: RoundFunction, ghost w: Schedule,
        ghost nr: nat) returns (b1: Block, kp: nat)
      requires Valid() && KeySize(keyLength) && 4 * nr == keyLength + 24
      requires Simulates(view, InvNormalRound, f) && KeysBack(view, w, nr, keyDec[..])
      ensures kp == 4 * nr && kp + 4 <= MAX_WORDS
      ensures view(b1) == Descend(f, w, nr, view(b), nr - 1)
    {
      var b0;
      ghost var r;
      b0, kp, r := DecryptExtra(b, view, f, w, nr);
      b1 := DecryptNine(b0, kp, view, f, w, view(b), nr, r);
      kp := kp + 36;
    }

    method PutEnc(n: nat, t: bv32, ghost key: seq<bv8>, ghost nk: nat)
      requires Valid() && n < MAX_WORDS
      requires 0 < nk && |key| == 4 * nk && Filled(keyEnc[..], key, nk, n) && Unpack(t) == KeyWord(key, nk, n)
      modifies keyEnc
      ensures Filled(keyEnc[..], key, nk, n + 1) && keyEnc[n] == t
    {
      ghost var e := keyEnc[..];
      keyEnc[n] := t;
      assert keyEnc[..] == e[n := t];
    }

    /** One of the plain words of loop4, loop6 and loop8. */
    method Plain(n: nat, t: bv32, ghost key: seq<bv8>, nk: nat) returns (t': bv32)
      requires Valid() && PlainAt(nk, n) && n < MAX_WORDS && |key| == 4 * nk
      requires Filled(keyEnc[..], key, nk, n) && t == keyEnc[n - 1]
      modifies keyEnc
      ensures Filled(keyEnc[..], key, nk, n + 1) && t' == keyEnc[n]
    {
      PlainWord(keyEnc[..], key, nk, n);
      t' := Xor(t, keyEnc[n - nk]);
      PutEnc(n, t', key, nk);
    }

    /** Three plain words in a row. */
    method Three(n: nat, t: bv32, ghost key: seq<bv8>, nk: nat) returns (t': bv32)
      requires Valid() && n + 2 < MAX_WORDS && |key| == 4 * nk
      requires PlainAt(nk, n) && PlainAt(nk, n + 1) && PlainAt(nk, n + 2)
      requires Filled(keyEnc[..], key, nk, n) && t == keyEnc[n - 1]
      modifies keyEnc
      ensures Filled(keyEnc[..], key, nk, n + 3) && t' == keyEnc[n + 2]
    {
      t' := Plain(n, t, key, nk);
      t' := Plain(n + 1, t', key, nk);
      t' := Plain(n + 2, t', key, nk);
    }

    /** The word that starts a group in loop4, loop6 and loop8tophalf. */
    method First(i: nat, n: nat, t: bv32, ghost key: seq<bv8>, nk: nat) returns (t': bv32)
      requires Valid() && FirstAt(nk, i, n) && n < MAX_WORDS && i < 10 && |key| == 4 * nk
      requires Filled(keyEnc[..], key, nk, n) && t == keyEnc[n - 1]
      modifies keyEnc
      ensures Filled(keyEnc[..], key, nk, n + 1) && t' == keyEnc[n]
    {
      GroupWord(keyEnc[..], key, nk, i, n);
      t' := Ror8(t);
      t' := Xor(LsBox(t'), RcoTab(i));
      t' := Xor(t', keyEnc[n - nk]);
      PutEnc(n, t', key, nk);
    }

    /** The word in the middle of a group in loop8. */
    method Middle(n: nat, t: bv32, ghost key: seq<bv8>, nk: nat) returns (t': bv32)
      requires Valid() && 6 < nk <= n < MAX_WORDS && n % nk == 4 && |key| == 4 * nk
      requires Filled(keyEnc[..], key, nk, n) && t == keyEnc[n - 1]
      modifies keyEnc
      ensures Filled(keyEnc[..], key, nk, n + 1) && t' == keyEnc[n]
    {
      MiddleWord(keyEnc[..], key, nk, n);
      t' := Xor(keyEnc[n - nk], LsBox(t));
      PutEnc(n, t', key, nk);
    }

    /** loop4 */
    method Loop4(i: nat, t: bv32, ghost key: seq<bv8>) returns (t': bv32)
      requires Valid() && i < 10 && |key| == 16 && Filled(keyEnc[..], key, 4, 4 * i + 4) && t == keyEnc[4 * i + 3]
      modifies keyEnc
      ensures Filled(keyEnc[..], key, 4, 4 * i + 8) && t' == keyEnc[4 * i + 7]
    {
      GroupOf4(i);
      t' := First(i, 4 * i + 4, t, key, 4);
      t' := Three(4 * i + 5, t', key, 4);
    }

    /** loop6 */
    method Loop6(i: nat, t: bv32, ghost key: seq<bv8>) returns (t': bv32)
      requires Valid() && i < 8 && |key| == 24 && Filled(keyEnc[..], key, 6, 6 * i + 6) && t == keyEnc[6 * i + 5]
      modifies keyEnc
      ensures Filled(keyEnc[..], key, 6, 6 * i + 12) && t' == keyEnc[6 * i + 11]
    {
      GroupOf6(i);
      t' := First(i, 6 * i + 6, t, key, 6);
      t' := Three(6 * i + 7, t', key, 6);
      t' := Plain(6 * i + 10, t', key, 6);
      t' := Plain(6 * i + 11, t', key, 6);
    }

    /** loop8tophalf */
    method Loop8TopHalf(i: nat, t: bv32, ghost key: seq<bv8>) returns (t': bv32)
      requires Valid() && i < 7 && |key| == 32 && Filled(keyEnc[..], key, 8, 8 * i + 8) && t == keyEnc[8 * i + 7]
      modifies keyEnc
      ensures Filled(keyEnc[..], key, 8, 8 * i + 12) && t' == keyEnc[8 * i + 11]
    {
      GroupOf8(i);
      t' := First(i, 8 * i + 8, t, key, 8);
      t' := Three(8 * i + 9, t', key, 8);
    }

    /** loop8 */
    method Loop8(i: nat, t: bv32, ghost key: seq<bv8>) returns (t': bv32)
      requires Valid() && i < 6 && |key| == 32 && Filled(keyEnc[..], key, 8, 8 * i + 8) && t == keyEnc[8 * i + 7]
      modifies keyEnc
      ensures Filled(keyEnc[..], key, 8, 8 * i + 16) && t' == keyEnc[8 * i + 15]
    {
      GroupOf8(i);
      t' := Loop8TopHalf(i, t, key);
      t' := Middle(8 * i + 12, t', key, 8);
      t' := Three(8 * i + 13, t', key, 8);
    }

    /** key_enc[i] = le32_to_cpu(key[i]) */
    method CopyWord(i: nat, key: seq<bv8>, ghost nk: nat)
      requires Valid() && 0 < nk && |key| == 4 * nk && i < nk && nk <= 8 && Filled(keyEnc[..], key, nk, i)
      modifies keyEnc
      ensures Filled(keyEnc[..], key, nk, i + 1)
    {
      var c := Column(key[4 * i], key[4 * i + 1], key[4 * i + 2], key[4 * i + 3]);
      UnpackPack(c);
      PutEnc(i, Pack(c), key, nk);
    }

    method Fill128(key: seq<bv8>)
      requires Valid() && |key| == 16 && Filled(keyEnc[..], key, 4, 4)
      modifies keyEnc
      ensures Filled(keyEnc[..], key, 4, 44)
    {
      var t := keyEnc[3];
      for i := 0 to 10
        invariant Filled(keyEnc[..], key, 4, 4 * i + 4) && t == keyEnc[4 * i + 3]
      {
        t := Loop4(i, t, key);
      }
    }

    method Fill192(key: seq<bv8>)
      requires Valid() && |key| == 24 && Filled(keyEnc[..], key, 6, 4)
      modifies keyEnc
      ensures Filled(keyEnc[..], key, 6, 54)
    {
      CopyWord(4, key, 6);
      CopyWord(5, key, 6);
      var t := keyEnc[5];
      for i := 0 to 8
        invariant Filled(keyEnc[..], key, 6, 6 * i + 6) && t == keyEnc[6 * i + 5]
      {
        t := Loop6(i, t, key);
      }
    }

    method Fill256(key: seq<bv8>)
      requires Valid() && |key| == 32 && Filled(keyEnc[..], key, 8, 4)
      modifies keyEnc
      ensures Filled(keyEnc[..], key, 8, 60)
    {
      CopyWord(4, key, 8);
      CopyWord(5, key, 8);
      CopyWord(6, key, 8);
      CopyWord(7, key, 8);
      var t := keyEnc[7];
      for i := 0 to 6
        invariant Filled(keyEnc[..], key, 8, 8 * i + 8) && t == keyEnc[8 * i + 7]
      {
        t := Loop8(i, t, key);
      }
      t := Loop8TopHalf(6, t, key);
    }

    /** The encryption schedule. */
    method FillEnc(key: seq<bv8>, ghost nk: nat)
      requires Valid() && KeySize(|key|) && |key| == 4 * nk
      modifies keyEnc
      ensures Filled(keyEnc[..], key, nk, 4 * (Rounds(nk) + 1))
    {
      CopyWord(0, key, nk);
      CopyWord(1, key, nk);
      CopyWord(2, key, nk);
      CopyWord(3, key, nk);
      if |key| == 16 {
        Fill128(key);
      } else if |key| == 24 {
        Fill192(key);
      } else {
        Fill256(key);
      }
    }

    method PutOuter(c: nat, keyLen: nat)
      requires Valid() && c < 4 && KeySize(keyLen) && Swapped(keyEnc[..], keyDec[..], keyLen, c)
      modifies keyDec
      ensures Swapped(keyEnc[..], keyDec[..], keyLen, c + 1)
    {
      keyDec[keyLen + 24 + c] := keyEnc[c];
      keyDec[c] := keyEnc[keyLen + 24 + c];
    }

    /** The first and last round keys of the decryption schedule. */
    method FillOuter(key: seq<bv8>, ghost nk: nat)
      requires Valid() && KeySize(|key|) && |key| == 4 * nk && Filled(keyEnc[..], key, nk, 4 * (Rounds(nk) + 1))
      modifies keyDec
      ensures DecFilled(keyDec[..], key, nk, 4)
    {
      PutOuter(0, |key|);
      PutOuter(1, |key|);
      PutOuter(2, |key|);
      PutOuter(3, |key|);
      OuterWords(keyEnc[..], keyDec[..], key, nk);
    }

    /** The decryption schedule, from a filled encryption schedule. */
    method FillDec(key: seq<bv8>, ghost nk: nat)
      requires Valid() && KeySize(|key|) && |key| == 4 * nk && Filled(keyEnc[..], key, nk, 4 * (Rounds(nk) + 1))
      modifies keyDec
      ensures Expanded(keyEnc[..], keyDec[..], key, nk)
    {
      FillOuter(key, nk);
      for i := 4 to |key| + 24
        invariant DecFilled(keyDec[..], key, nk, i)
      {
        var j := |key| + 24 - (i - i % 4) + i % 4;
        PutDec(j, Imix(keyEnc[i]), i, key, nk);
      }
    }

    method PutDec(j: nat, t: bv32, ghost i: nat, ghost key: seq<bv8>, ghost nk: nat)
      requires Valid() && KeySize(|key|) && |key| == 4 * nk && 4 <= i < |key| + 24
      requires j == |key| + 24 - (i - i % 4) + i % 4
      requires DecFilled(keyDec[..], key, nk, i) && Unpack(keyEnc[i]) == KeyWord(key, nk, i) && t == Imix(keyEnc[i])
      modifies keyDec
      ensures DecFilled(keyDec[..], key, nk, i + 1)
    {
      ghost var d := keyDec[..];
      ImixIsInvMixColumn(keyEnc[i]);
      keyDec[j] := t;
      assert j == DecPlace(nk, i);
      DecFilledPut(d, key, nk, i, t);
      assert keyDec[..] == d[j := t];
    }

    /** crypto_aes_expand_key: false is EINVAL. */
    method ExpandKey(key: seq<bv8>) returns (ok: bool)
      requires Valid()
      modifies this`keyLength, keyEnc, keyDec
      ensures Valid() && ok == KeySize(|key|)
      ensures ok ==> Keyed(key)
      ensures !ok ==> keyLength == old(keyLength) && keyEnc[..] == old(keyEnc[..]) && keyDec[..] == old(keyDec[..])
    {
      if |key| != 16 && |key| != 24 && |key| != 32 {
        return false;
      }
      keyLength := |key|;
      FillEnc(key, |key| / 4);
      FillDec(key, |key| / 4);
      return true;
    }

    /** aes_encrypt */
    method Encrypt(input: seq<bv8>, ghost key: seq<bv8>) returns (output: seq<bv8>)
      requires Valid() && Keyed(key) && |input| == 16
      ensures output == EncryptBlock(key, input)
    {
      ghost var nk := |key| / 4;
      EncArrayIsCipher(keyEnc[..], key, nk, Rounds(nk), InputState(input));
      var b0 := XorBlock(Load(input), KeyBlock(keyEnc[..], 0));
      EveryRound(keyEnc[..]);
      var b1, kp := EncryptRounds(b0, StateOf, Round, EncSchedule(keyEnc[..]), Rounds(nk));
      b0 := LastRound(b1, KeyBlock(keyEnc[..], kp));
      EncryptEnds(keyEnc[..], input, Rounds(nk), b1, kp);
      output := OutputBytes(StateOf(b0));
    }

    /** aes_decrypt */
    method Decrypt(input: seq<bv8>, ghost key: seq<bv8>) returns (output: seq<bv8>)
      requires Valid() && Keyed(key) && |input| == 16
      ensures output == DecryptBlock(key, input)
    {
      ghost var nk := |key| / 4;
      DecArrayIsInvCipher(keyDec[..], key, nk, Rounds(nk), InputState(input));
      var b0 := XorBlock(Load(input), KeyBlock(keyDec[..], 0));
      EveryInvRound(keyDec[..], Rounds(nk));
      var b1, kp := DecryptRounds(b0, StateOf, EqRound, DecSchedule(keyDec[..], Rounds(nk)), Rounds(nk));
      b0 := InvLastRound(b1, KeyBlock(keyDec[..], kp));
      DecryptEnds(keyDec[..], input, Rounds(nk), b1, kp);
      output := OutputBytes(StateOf(b0));
    }
  }
}

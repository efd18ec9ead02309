/**
 crypto_inc adds one to a big-endian number, a 32-bit word at a time from its end and the rest of
 it byte by byte.
 */
module CryptoInc {
  type Byte = x: int | 0 <= x < 256

  const WORD: nat := 0x1_0000_0000

  // ---------- The number in a buffer ----------

  function Pow256(n: nat): (p: nat)
    ensures p > 0
  {
    if n == 0 then 1 else 256 * Pow256(n - 1)
  }

  function Value(s: seq<Byte>): nat {
    if s == [] then 0 else Value(s[..|s| - 1]) * 256 + s[|s| - 1]
  }

  lemma {:induction false} ValueBound(s: seq<Byte>)
    ensures Value(s) < Pow256(|s|)
  {
    if s != [] {
      ValueBound(s[..|s| - 1]);
    }
  }

  /** Different buffers of one length hold different numbers. */
  lemma {:induction false} ValueInjective(s: seq<Byte>, t: seq<Byte>)
    requires |s| == |t| && Value(s) == Value(t)
    ensures s == t
  {
    if s != [] {
      var n := |s| - 1;
      LastDigit(Value(s[..n]), s[n], Value(t[..n]), t[n]);
      ValueInjective(s[..n], t[..n]);
      assert s == s[..n] + [s[n]] && t == t[..n] + [t[n]];
    }
  }

  lemma {:induction false} LastDigit(a: nat, x: Byte, b: nat, y: Byte)
    requires a * 256 + x == b * 256 + y
    ensures a == b && x == y
  {
  }

  // ---------- The loops as functions ----------

  /** crypto_inc_byte */
  function IncBytes(s: seq<Byte>): (r: seq<Byte>)
    ensures |r| == |s|
  {
    if s == [] then []
    else
      var n := |s| - 1;
      if s[n] == 255 then IncBytes(s[..n]) + [0] else s[..n] + [s[n] + 1]
  }

  /** be32_to_cpu */
  function Word(a: Byte, b: Byte, c: Byte, d: Byte): (w: nat)
    ensures w < WORD
  {
    ((a * 256 + b) * 256 + c) * 256 + d
  }

  /** cpu_to_be32 */
  function Bytes(w: nat): (r: seq<Byte>)
    requires w < WORD
    ensures |r| == 4 && Word(r[0], r[1], r[2], r[3]) == w
  {
    var w1 := w / 256;
    var w2 := w1 / 256;
    [w2 / 256, w2 % 256, w1 % 256, w % 256]
  }

  function LastWord(s: seq<Byte>): nat
    requires |s| >= 4
  {
    var n := |s|;
    Word(s[n - 4], s[n - 3], s[n - 2], s[n - 1])
  }

  /** A word plus one, in 32 bits. */
  function NextWord(w: nat): (c: nat)
    requires w < WORD
    ensures c == if w == WORD - 1 then 0 else w + 1
  {
    (w + 1) % WORD
  }

  /** crypto_inc */
  function IncWords(s: seq<Byte>): (r: seq<Byte>)
    ensures |r| == |s|
  {
    if |s| < 4 then IncBytes(s)
    else
      var c := NextWord(LastWord(s));
      (if c == 0 then IncWords(s[..|s| - 4]) else s[..|s| - 4]) + Bytes(c)
  }

  // ---------- What they compute ----------

  /** One more, and zero after the largest number. */
  function Successor(v: nat, size: nat): nat
    requires v < Pow256(size)
  {
    if v + 1 == Pow256(size) then 0 else v + 1
  }

  lemma {:induction false} SuccessorIsModular(v: nat, size: nat)
    requires v < Pow256(size)
    ensures Successor(v, size) == (v + 1) % Pow256(size)
  {
    if v + 1 < Pow256(size) {
      SmallMod(v + 1, Pow256(size));
    } else {
      SelfMod(Pow256(size));
    }
  }

  lemma {:induction false} SmallMod(a: nat, m: nat)
    requires a < m
    ensures a % m == a
  {
  }

  lemma {:induction false} SelfMod(m: nat)
    requires m > 0
    ensures m % m == 0
  {
  }

  lemma {:induction false} IncBytesValue(s: seq<Byte>)
    ensures Value(s) < Pow256(|s|) && Value(IncBytes(s)) == Successor(Value(s), |s|)
  {
    ValueBound(s);
    if s != [] {
      var n := |s| - 1;
      ValueBound(s[..n]);
      IncBytesValue(s[..n]);
      var r := IncBytes(s);
      if s[n] == 255 {
        assert r[..n] == IncBytes(s[..n]) && r[n] == 0;
      } else {
        assert r[..n] == s[..n];
      }
    }
  }

  lemma {:induction false} ValueLast(s: seq<Byte>, k: nat)
    requires 0 < k <= |s|
    ensures Value(s[..k]) == Value(s[..k - 1]) * 256 + s[k - 1]
  {
    assert s[..k][..k - 1] == s[..k - 1];
  }

  /** Four bytes at the end are one digit to the base of a word. */
  lemma {:induction false} ValueWord(s: seq<Byte>)
    requires |s| >= 4
    ensures Value(s) == Value(s[..|s| - 4]) * WORD + LastWord(s)
  {
    var n := |s|;
    ValueLast(s, n);
    ValueLast(s, n - 1);
    ValueLast(s, n - 2);
    ValueLast(s, n - 3);
    assert s[..n] == s;
    WordArithmetic(Value(s[..n - 4]), s[n - 4], s[n - 3], s[n - 2], s[n - 1]);
  }

  lemma {:induction false} WordArithmetic(v: nat, a: Byte, b: Byte, c: Byte, d: Byte)
    ensures (((v * 256 + a) * 256 + b) * 256 + c) * 256 + d == v * WORD + Word(a, b, c, d)
  {
  }

  lemma {:induction false} PowWord(n: nat)
    ensures Pow256(n + 4) == WORD * Pow256(n)
  {
    assert Pow256(n + 4) == 256 * Pow256(n + 3) && Pow256(n + 3) == 256 * Pow256(n + 2);
    assert Pow256(n + 2) == 256 * Pow256(n + 1) && Pow256(n + 1) == 256 * Pow256(n);
  }

  lemma {:induction false} IncWordsValue(s: seq<Byte>)
    ensures Value(s) < Pow256(|s|) && Value(IncWords(s)) == Successor(Value(s), |s|)
  {
    ValueBound(s);
    if |s| < 4 {
      IncBytesValue(s);
    } else {
      var m := |s| - 4;
      IncWordsValue(s[..m]);
      ValueWord(s);
      ValueWord(IncWords(s));
      IncWordsParts(s);
      PowWord(m);
      CarryStep(Value(s[..m]), LastWord(s), Pow256(m));
    }
  }

  /** The last word of the result, and what is in front of it. */
  lemma {:induction false} IncWordsParts(s: seq<Byte>)
    requires |s| >= 4
    ensures var r, m := IncWords(s), |s| - 4;
            && LastWord(r) == NextWord(LastWord(s))
            && r[..m] == (if LastWord(s) == WORD - 1 then IncWords(s[..m]) else s[..m])
  {
  }

  /** The successor of a number from the successors of its last word and of the rest. */
  lemma {:induction false} CarryStep(v: nat, w: nat, p: nat)
    requires v < p && w < WORD
    ensures v * WORD + w < WORD * p
    ensures w == WORD - 1 ==> (v * WORD + w + 1 == WORD * p <==> v + 1 == p) && v * WORD + w + 1 == (v + 1) * WORD
    ensures w < WORD - 1 ==> v * WORD + w + 1 != WORD * p
  {
    if w < WORD - 1 {
      assert (v + 1) * WORD <= p * WORD;
    }
  }

  /** On any length the result is the number plus one, modulo 256 to the length. */
  lemma {:induction false} IncAddsOne(s: seq<Byte>)
    ensures Value(IncWords(s)) == (Value(s) + 1) % Pow256(|s|)
  {
    IncWordsValue(s);
    SuccessorIsModular(Value(s), |s|);
  }

  /** Taking words first makes no difference. */
  lemma {:induction false} WordsAgreeWithBytes(s: seq<Byte>)
    ensures IncWords(s) == IncBytes(s)
  {
    IncWordsValue(s);
    IncBytesValue(s);
    ValueInjective(IncWords(s), IncBytes(s));
  }

  // ---------- In place ----------

  /** crypto_inc_byte on the first bytes of the buffer. */
  method IncByteLoop(a: array<Byte>, size: nat)
    requires size <= a.Length
    modifies a
    ensures a[..] == IncBytes(old(a[..size])) + old(a[size..])
  {
    var n := size;
    while n > 0
      invariant 0 <= n <= size
      invariant a[..n] == old(a[..n]) && a[size..] == old(a[size..])
      invariant IncBytes(old(a[..size])) == IncBytes(old(a[..n])) + a[n..size]
    {
      var b: int := a[n - 1];
      var c: int := (b + 1) % 256;
      assert old(a[..n])[..n - 1] == old(a[..n - 1]);
      a[n - 1] := c;
      assert a[n - 1..size] == [c] + a[n..size];
      if c != 0 {
        assert a[..n] == IncBytes(old(a[..n]));
        assert a[..] == a[..n] + a[n..size] + a[size..];
        return;
      }
      n := n - 1;
    }
    assert a[..] == a[0..size] + a[size..];
  }

  /** Big-endian load of one word. */
  method LoadWord(a: array<Byte>, end: nat) returns (w: nat)
    requires 4 <= end <= a.Length
    ensures w == LastWord(a[..][..end])
  {
    w := Word(a[end - 4], a[end - 3], a[end - 2], a[end - 1]);
  }

  /** Big-endian store of one word. */
  method StoreWord(a: array<Byte>, at: nat, w: nat)
    requires at + 4 <= a.Length && w < WORD
    modifies a
    ensures a[..] == old(a[..])[..at] + Bytes(w) + old(a[..])[at + 4..]
  {
    var b := Bytes(w);
    a[at], a[at + 1], a[at + 2], a[at + 3] := b[0], b[1], b[2], b[3];
  }

  /** crypto_inc: words from the end of the buffer while they carry, then bytes. */
  method Inc(a: array<Byte>)
    modifies a
    ensures a[..] == IncWords(old(a[..]))
  {
    ghost var was := a[..];
    ghost var done: seq<Byte> := [];
    var size := a.Length;
    assert was[..size] == was;
    while size >= 4
      invariant size + |done| == a.Length
      invariant a[..] == was[..size] + done
      invariant IncWords(was) == IncWords(was[..size]) + done
    {
      WordStep(was, size, done);
      var w := LoadWord(a, size);
      var c := NextWord(w);
      StoreWord(a, size - 4, c);
      if c != 0 {
        return;
      }
      size, done := size - 4, Bytes(c) + done;
    }
    assert a[..size] == a[..][..size] == was[..size] && a[size..] == a[..][size..] == done;
    IncByteLoop(a, size);
  }

  /** One word of the loop: what is stored, and what is left to do in front of it. */
  lemma {:induction false} WordStep(was: seq<Byte>, size: nat, done: seq<Byte>)
    requires 4 <= size <= |was|
    ensures var c, m, cur := NextWord(LastWord(was[..size])), size - 4, was[..size] + done;
            && cur[..size] == was[..size]
            && cur[..m] + Bytes(c) + cur[size..] == was[..m] + (Bytes(c) + done)
            && IncWords(was[..size]) + done
               == (if c == 0 then IncWords(was[..m]) else was[..m]) + (Bytes(c) + done)
  {
    var s, m := was[..size], size - 4;
    var c := NextWord(LastWord(s));
    var front := if c == 0 then IncWords(s[..m]) else s[..m];
    assert s[..m] == was[..m] && (s + done)[..m] == was[..m] && (s + done)[size..] == done;
    assert front + Bytes(c) + done == front + (Bytes(c) + done);
    assert was[..m] + Bytes(c) + done == was[..m] + (Bytes(c) + done);
  }
}

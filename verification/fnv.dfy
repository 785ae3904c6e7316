// FNV-1a, and why a one-byte difference always changes it.

module Fnv {
  import opened Basics

  const OFFSET: u32 := 2166136261
  const PRIME := 16777619
  /** PRIME's inverse modulo 2^32. */
  const INVERSE := 899433627

  function Pow2(k: nat): nat {
    if k == 0 then 1 else 2 * Pow2(k - 1)
  }

  /** Exclusive or of the k low bits. */
  function Xor(a: nat, b: nat, k: nat): nat {
    if k == 0 then 0 else (a % 2 + b % 2) % 2 + 2 * Xor(a / 2, b / 2, k - 1)
  }

  lemma {:induction false} XorFits(a: nat, b: nat, k: nat)
    ensures Xor(a, b, k) < Pow2(k)
  {
    if k > 0 {
      XorFits(a / 2, b / 2, k - 1);
    }
  }

  /** Exclusive or with the same word twice gives the first word back. */
  lemma {:induction false} XorTwice(a: nat, b: nat, k: nat)
    requires a < Pow2(k)
    ensures Xor(Xor(a, b, k), b, k) == a
  {
    if k > 0 {
      var rest := Xor(a / 2, b / 2, k - 1);
      var bit := (a % 2 + b % 2) % 2;
      XorTwice(a / 2, b / 2, k - 1);
      TopAndBottom(bit, rest);
      assert Xor(a, b, k) == bit + 2 * rest;
      XorUnfolds(bit + 2 * rest, b, k);
      LowBitTwice(a, b);
    }
  }

  lemma TopAndBottom(bit: nat, rest: nat)
    requires bit < 2
    ensures (bit + 2 * rest) % 2 == bit && (bit + 2 * rest) / 2 == rest
  {
  }

  lemma LowBitTwice(a: nat, b: nat)
    ensures ((a % 2 + b % 2) % 2 + b % 2) % 2 == a % 2 && a == a % 2 + 2 * (a / 2)
  {
  }

  lemma XorUnfolds(a: nat, b: nat, k: nat)
    requires k > 0
    ensures Xor(a, b, k) == (a % 2 + b % 2) % 2 + 2 * Xor(a / 2, b / 2, k - 1)
  {
  }

  lemma {:induction false} XorCommutes(a: nat, b: nat, k: nat)
    ensures Xor(a, b, k) == Xor(b, a, k)
  {
    if k > 0 {
      XorCommutes(a / 2, b / 2, k - 1);
    }
  }

  lemma Word()
    ensures Pow2(32) == TWO32
  {
    assert Pow2(10) == 1024;
    assert Pow2(20) == 1024 * 1024;
    assert Pow2(30) == 1024 * 1024 * 1024;
  }

  function Mix(h: u32, b: u8): u32 {
    XorFits(h, b, 32);
    Word();
    Xor(h, b, 32)
  }

  /** One byte: mixed in, then spread by the FNV prime. */
  function Step(h: u32, b: u8): u32 {
    (Mix(h, b) * PRIME) % TWO32
  }

  function HashFrom(bytes: seq<u8>, h: u32): u32
    decreases |bytes|
  {
    if bytes == [] then h else HashFrom(bytes[1..], Step(h, bytes[0]))
  }

  function Hash(bytes: seq<u8>): u32 {
    HashFrom(bytes, OFFSET)
  }

  /** The prime is odd, so spreading loses nothing. */
  lemma SpreadUndone(m: u32)
    ensures (((m * PRIME) % TWO32) * INVERSE) % TWO32 == m
  {
    var q := (m * PRIME) / TWO32;
    var r := (m * PRIME) % TWO32;
    assert PRIME * INVERSE == 1 + 3513497 * TWO32;
    assert r * INVERSE == m + (m * 3513497 - q * INVERSE) * TWO32;
    Multiple(m, m * 3513497 - q * INVERSE);
  }

  lemma Multiple(m: u32, k: int)
    ensures (m + k * TWO32) % TWO32 == m
  {
  }

  /** Mixing is a bijection of the accumulator, and of the byte mixed in. */
  lemma MixIsInjective(h: u32, g: u32, b: u8, c: u8)
    requires Mix(h, b) == Mix(g, c)
    ensures b == c ==> h == g
    ensures h == g ==> b == c
  {
    Word();
    hide Xor, Pow2;
    XorTwice(h, b, 32);
    XorTwice(g, c, 32);
    XorCommutes(h, b, 32);
    XorCommutes(g, c, 32);
    XorTwice(b, h, 32);
    XorTwice(c, g, 32);
  }

  /** One byte's step is a bijection of the accumulator. */
  lemma StepKeepsDifference(h: u32, g: u32, b: u8)
    requires h != g
    ensures Step(h, b) != Step(g, b)
  {
    hide Mix;
    SpreadUndone(Mix(h, b));
    SpreadUndone(Mix(g, b));
    if Mix(h, b) == Mix(g, b) {
      MixIsInjective(h, g, b, b);
    }
  }

  /** And it tells bytes apart. */
  lemma StepSeesByte(h: u32, b: u8, c: u8)
    requires b != c
    ensures Step(h, b) != Step(h, c)
  {
    hide Mix;
    SpreadUndone(Mix(h, b));
    SpreadUndone(Mix(h, c));
    if Mix(h, b) == Mix(h, c) {
      MixIsInjective(h, h, b, c);
    }
  }

  lemma {:induction false} HashKeepsDifference(bytes: seq<u8>, h: u32, g: u32)
    requires h != g
    ensures HashFrom(bytes, h) != HashFrom(bytes, g)
    decreases |bytes|
  {
    hide Step;
    if bytes != [] {
      StepKeepsDifference(h, g, bytes[0]);
      HashKeepsDifference(bytes[1..], Step(h, bytes[0]), Step(g, bytes[0]));
    }
  }

  lemma {:induction false} HashAppend(a: seq<u8>, b: seq<u8>, h: u32)
    ensures HashFrom(a + b, h) == HashFrom(b, HashFrom(a, h))
    decreases |a|
  {
    hide Step;
    if a == [] {
      assert a + b == b;
    } else {
      assert (a + b)[0] == a[0] && (a + b)[1..] == a[1..] + b;
      HashAppend(a[1..], b, Step(h, a[0]));
    }
  }

  lemma DifferentBytes(x: u8, y: u8, h: u32)
    requires x != y
    ensures HashFrom([x], h) != HashFrom([y], h)
  {
    hide Step;
    StepSeesByte(h, x, y);
    assert [x][1..] == [] && [y][1..] == [];
  }

  /** Two byte strings that differ in exactly one place have different hashes. */
  lemma OneByteMatters(a: seq<u8>, x: u8, y: u8, b: seq<u8>)
    requires x != y
    ensures Hash(a + [x] + b) != Hash(a + [y] + b)
  {
    hide HashFrom;
    HashAppend(a + [x], b, OFFSET);
    HashAppend(a + [y], b, OFFSET);
    HashAppend(a, [x], OFFSET);
    HashAppend(a, [y], OFFSET);
    var h := HashFrom(a, OFFSET);
    DifferentBytes(x, y, h);
    HashKeepsDifference(b, HashFrom([x], h), HashFrom([y], h));
  }

  /** The hash's loop, which never looks back. */
  method HashLoop(bytes: seq<u8>) returns (h: u32)
    ensures h == Hash(bytes)
  {
    hide Step;
    h := OFFSET;
    var i := 0;
    while i < |bytes|
      invariant 0 <= i <= |bytes| && HashFrom(bytes[i..], h) == Hash(bytes)
    {
      assert bytes[i..][0] == bytes[i] && bytes[i..][1..] == bytes[i + 1..];
      h := Step(h, bytes[i]);
      i := i + 1;
    }
  }
}

// Shared vocabulary: machine integers, endpoints, lobby messages and the
// 32-bit xorshift that the server, the clients and the simulation all use.

module Basics {

  type u8 = x: int | 0 <= x < 0x100
  type u16 = x: int | 0 <= x < 0x1_0000
  type u32 = x: int | 0 <= x < 0x1_0000_0000

  const TWO32 := 0x1_0000_0000

  datatype Option<+T> = None | Some(value: T)

  /** Unsigned 32-bit difference: the age of `then` on a wrapping millisecond clock. */
  function Elapsed(now: u32, then': u32): u32 {
    (now - then') % TWO32
  }

  /** A player index or, equally, a slot of a lobby session. */
  type Slot = x: int | 0 <= x < 4

  /** A fixed array of four, one entry per slot. */
  datatype Quad<+T> = Quad(x0: T, x1: T, x2: T, x3: T) {
    function At(i: Slot): T {
      match i case 0 => x0 case 1 => x1 case 2 => x2 case _ => x3
    }

    function With(i: Slot, v: T): (q: Quad<T>)
      ensures forall j: Slot :: q.At(j) == if j == i then v else At(j)
    {
      match i
      case 0 => this.(x0 := v)
      case 1 => this.(x1 := v)
      case 2 => this.(x2 := v)
      case _ => this.(x3 := v)
    }
  }

  function Same<T>(v: T): Quad<T> {
    Quad(v, v, v, v)
  }

  function Min(a: int, b: int): int {
    if a < b then a else b
  }

  function Max(a: int, b: int): int {
    if a > b then a else b
  }
}

/** xorshift32, the only generator in the repository. */
module XorShift {

  function Mix13(x: bv32): bv32 { x ^ (x << 13) }

  function Mix17(x: bv32): bv32 { x ^ (x >> 17) }

  function Mix5(x: bv32): bv32 { x ^ (x << 5) }

  function Next(x: bv32): bv32 {
    Mix5(Mix17(Mix13(x)))
  }

  lemma ZeroOnlyFromZero(x: bv32)
    requires Next(x) == 0
    ensures x == 0
  {
  }

  lemma OnlyZeroIsFixed(x: bv32)
    requires Next(x) == x
    ensures x == 0
  {
  }

  lemma NoTwoCycle(x: bv32)
    requires Next(Next(x)) == x
    ensures x == 0
  {
  }

  /** A nonzero state returns to itself neither after one step nor after two, so
      three consecutive draws are pairwise different. */
  lemma NoShortCycle(x: bv32)
    requires x != 0
    ensures Next(x) != 0 && Next(x) != x && Next(Next(x)) != x
  {
    hide *;
    if Next(x) == 0 {
      ZeroOnlyFromZero(x);
    } else if Next(x) == x {
      OnlyZeroIsFixed(x);
    } else if Next(Next(x)) == x {
      NoTwoCycle(x);
    }
  }
}

/** First-match scans over the fixed tables. */
module Scan {
  import opened Basics

  /** The least index not below `i` whose element satisfies `p`. */
  function FirstFrom<T>(s: seq<T>, p: T -> bool, i: nat): (r: Option<nat>)
    ensures r.Some? ==> i <= r.value < |s| && p(s[r.value])
    ensures r.Some? ==> forall j :: i <= j < r.value ==> !p(s[j])
    ensures r.None? ==> forall j :: i <= j < |s| ==> !p(s[j])
    decreases |s| - i
  {
    if i >= |s| then None
    else if p(s[i]) then Some(i)
    else FirstFrom(s, p, i + 1)
  }

  /** The same scan over the four slots. */
  function FirstSlotFrom<T>(q: Quad<T>, p: T -> bool, i: nat): (r: Option<nat>)
    ensures r.Some? ==> i <= r.value < 4 && p(q.At(r.value))
    ensures r.Some? ==> forall j: Slot :: i <= j < r.value ==> !p(q.At(j))
    ensures r.None? ==> forall j: Slot :: i <= j ==> !p(q.At(j))
    decreases 4 - i
  {
    if i >= 4 then None
    else if p(q.At(i)) then Some(i)
    else FirstSlotFrom(q, p, i + 1)
  }

  function First<T>(s: seq<T>, p: T -> bool): (r: Option<nat>)
    ensures r.Some? ==> r.value < |s| && p(s[r.value])
    ensures r.Some? ==> forall j :: 0 <= j < r.value ==> !p(s[j])
    ensures r.None? ==> forall j :: 0 <= j < |s| ==> !p(s[j])
  {
    FirstFrom(s, p, 0)
  }
}

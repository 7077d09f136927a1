/** Shared vocabulary: Go's 64-bit signed integers, an Option type and
    the concatenation of a sequence of sequences. */
module Base {

  const MinInt64: int := -0x8000_0000_0000_0000
  const MaxInt64: int := 0x7fff_ffff_ffff_ffff
  const TwoTo64: int := 0x1_0000_0000_0000_0000

  /** Go's `int64`. */
  type Int64 = x: int | MinInt64 <= x <= MaxInt64

  datatype Option<+T> = None | Some(value: T)

  /** Two's-complement wrap-around of an unbounded integer into `int64`. */
  function Wrap(x: int): (r: Int64)
    ensures (r - x) % TwoTo64 == 0
    ensures MinInt64 <= x <= MaxInt64 ==> r == x
  {
    var m := (x - MinInt64) % TwoTo64;
    assert 0 <= m < TwoTo64;
    m + MinInt64
  }

  /** Go's `a - b` on `int64` operands: the mathematical difference,
      wrapped around when it leaves the `int64` range. */
  function Sub64(a: Int64, b: Int64): (r: Int64)
    ensures (r - (a - b)) % TwoTo64 == 0
    ensures MinInt64 <= a - b <= MaxInt64 ==> r == a - b
  {
    Wrap(a - b)
  }

  /** The sequences of `ss` laid end to end, in order. */
  function Concat<T>(ss: seq<seq<T>>): seq<T>
  {
    if ss == [] then [] else ss[0] + Concat(ss[1..])
  }

  lemma {:induction false} ConcatAppend<T>(a: seq<seq<T>>, b: seq<seq<T>>)
    ensures Concat(a + b) == Concat(a) + Concat(b)
    decreases |a|
  {
    if a == [] {
      assert a + b == b;
    } else {
      assert (a + b)[1..] == a[1..] + b;
      ConcatAppend(a[1..], b);
    }
  }

  /** The blocks `f(lo)`, `f(lo + 1)`, ..., `f(hi - 1)` laid end to end. */
  function Blocks<T>(f: nat -> seq<T>, lo: nat, hi: nat): seq<T>
    decreases hi
  {
    if hi <= lo then [] else Blocks(f, lo, hi - 1) + f(hi - 1)
  }

  /** Blocks `lo..hi` are blocks `lo..mid` followed by blocks `mid..hi`. */
  lemma {:induction false} BlocksSplit<T>(f: nat -> seq<T>, lo: nat, mid: nat, hi: nat)
    requires lo <= mid <= hi
    ensures Blocks(f, lo, hi) == Blocks(f, lo, mid) + Blocks(f, mid, hi)
    decreases hi
  {
    if mid < hi {
      BlocksSplit(f, lo, mid, hi - 1);
    }
  }
}

/** Shared vocabulary: options, results, machine words and concatenation of batches. */
module Basics {

  datatype Option<+T> = None | Some(value: T)

  datatype Result<+T, +E> = Ok(value: T) | Err(error: E)

  const TWO_64: int := 0x1_0000_0000_0000_0000

  type u64 = x: int | 0 <= x < TWO_64

  /** The value kept by a cast to `u64`. */
  function AsU64(x: nat): u64 {
    x % TWO_64
  }

  function Min(a: int, b: int): int {
    if a < b then a else b
  }

  function Max(a: int, b: int): int {
    if a < b then b else a
  }

  /** `a - b`, stopping at zero. */
  function SaturatingSub(a: nat, b: nat): nat {
    if a < b then 0 else a - b
  }

  function Flatten<T>(parts: seq<seq<T>>): seq<T> {
    if parts == [] then [] else parts[0] + Flatten(parts[1..])
  }

  lemma {:induction false} FlattenAppend<T>(a: seq<seq<T>>, b: seq<seq<T>>)
    ensures Flatten(a + b) == Flatten(a) + Flatten(b)
  {
    if a == [] {
      assert a + b == b;
    } else {
      assert (a + b)[1..] == a[1..] + b;
      FlattenAppend(a[1..], b);
    }
  }

  lemma FlattenSnoc<T>(a: seq<seq<T>>, x: seq<T>)
    ensures Flatten(a + [x]) == Flatten(a) + x
  {
    FlattenAppend(a, [x]);
    assert Flatten([x]) == x + Flatten([]);
  }

  /** `part` is the piece of `whole` that starts at `off`. */
  predicate IsSegment<T(==)>(part: seq<T>, whole: seq<T>, off: nat) {
    off + |part| <= |whole| && whole[off..off + |part|] == part
  }

  lemma SegmentOfLonger<T>(part: seq<T>, whole: seq<T>, rest: seq<T>, off: nat)
    requires IsSegment(part, whole, off)
    ensures IsSegment(part, whole + rest, off)
  {
    assert (whole + rest)[off..off + |part|] == whole[off..off + |part|];
  }

  /** A run of consecutive parts flattens to a contiguous segment of the whole. */
  lemma FlattenSegment<T>(parts: seq<seq<T>>, lo: nat, hi: nat)
    requires lo <= hi <= |parts|
    ensures IsSegment(Flatten(parts[lo..hi]), Flatten(parts), |Flatten(parts[..lo])|)
  {
    assert parts == parts[..lo] + (parts[lo..hi] + parts[hi..]);
    FlattenAppend(parts[..lo], parts[lo..hi] + parts[hi..]);
    FlattenAppend(parts[lo..hi], parts[hi..]);
  }

  lemma SliceSnoc<T>(xs: seq<T>, lo: nat, k: nat)
    requires lo <= k < |xs|
    ensures xs[lo..k + 1] == xs[lo..k] + [xs[k]]
  {
  }

  lemma Regrouped<T>(a: seq<T>, b: seq<T>, c: seq<T>)
    ensures (a + b) + c == a + (b + c)
  {
  }

  /** A slice of a longer sequence that lies in its unchanged beginning. */
  lemma SliceOfLonger<T>(xs: seq<T>, ys: seq<T>, lo: nat, hi: nat)
    requires lo <= hi <= |xs| <= |ys| && ys[..|xs|] == xs
    ensures ys[lo..hi] == xs[lo..hi]
  {
    forall i | 0 <= i < hi - lo ensures ys[lo..hi][i] == xs[lo..hi][i] {
      assert ys[lo + i] == ys[..|xs|][lo + i];
    }
  }

  /** `a` is an initial part of `b`. */
  predicate IsPrefix<T(==)>(a: seq<T>, b: seq<T>) {
    |a| <= |b| && b[..|a|] == a
  }
}

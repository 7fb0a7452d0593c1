/**
 * The capped chart history of the dashboard hook: every new sample is added
 * with `[...prev.slice(-5), x]`, so a series keeps its last five old entries
 * and the new one.
 */
module History {
  /** How many earlier entries `slice(-5)` keeps. */
  const Kept: int := 5
  /** The longest a series can become: the kept entries plus the new one. */
  const Capacity: nat := 6

  function Min(a: int, b: int): int { if a <= b then a else b }

  /**
   * JavaScript's `Array.prototype.slice(start)` with no end: a negative start
   * counts from the end and is clamped at 0, a non-negative start is clamped
   * at the length.
   */
  function Slice<T>(s: seq<T>, start: int): (r: seq<T>)
    ensures |r| <= |s|
    ensures start < 0 ==> |r| == Min(|s|, -start)
    ensures 0 <= start ==> |r| == if start <= |s| then |s| - start else 0
  {
    if start < 0 then
      (if |s| + start < 0 then s else s[|s| + start..])
    else if start <= |s| then s[start..]
    else []
  }

  /** Reference definition of a sliding window: the last `n` entries of `s` (all of `s` if shorter). */
  function LastN<T>(s: seq<T>, n: nat): seq<T> {
    s[|s| - Min(|s|, n)..]
  }

  /** With a negative start, `slice` keeps exactly the last `-start` entries (all of them if fewer). */
  lemma SliceFromEnd<T>(s: seq<T>, start: int)
    requires start < 0
    ensures Slice(s, start) == LastN(s, -start)
  {
  }

  /** `[...prev.slice(-5), x]`: the history after sample `x` arrives. */
  function Append<T>(prev: seq<T>, x: T): (r: seq<T>)
    ensures |r| == Min(|prev|, Kept) + 1 && |r| <= Capacity
    ensures r[|r| - 1] == x
  {
    Slice(prev, -Kept) + [x]
  }

  /**
   * The entries before the new sample are the last `min(|prev|, 5)` entries of
   * the old series, in their old order.
   */
  lemma AppendKeepsNewestOld<T>(prev: seq<T>, x: T)
    ensures Append(prev, x)[..|Append(prev, x)| - 1] == LastN(prev, Kept)
  {
  }

  /** Appending is the sliding window of length 6 over the old series followed by the new sample. */
  lemma AppendIsWindow<T>(prev: seq<T>, x: T)
    ensures Append(prev, x) == LastN(prev + [x], Capacity)
  {
  }

  /** Two series of the same length stay the same length when each gets a sample. */
  lemma AppendKeepsAlignment<T, U>(a: seq<T>, x: T, b: seq<U>, y: U)
    requires |a| == |b|
    ensures |Append(a, x)| == |Append(b, y)|
  {
  }

  /** A series that is already full stays at full length. */
  lemma AppendWhenFull<T>(prev: seq<T>, x: T)
    requires |prev| >= Capacity
    ensures |Append(prev, x)| == Capacity
    ensures Append(prev, x) == prev[1 + |prev| - Capacity..] + [x]
  {
  }

  /** Windowing, then extending, then windowing again is the same as extending and windowing once. */
  lemma LastNConcat<T>(a: seq<T>, b: seq<T>, n: nat)
    ensures LastN(LastN(a, n) + b, n) == LastN(a + b, n)
  {
  }

  /** A series no longer than the window is its own window. */
  lemma LastNShort<T>(s: seq<T>, n: nat)
    requires |s| <= n
    ensures LastN(s, n) == s
  {
  }
}

/** The rolling window of recent readings: a bounded FIFO that keeps the newest entries. */
module Window {

  /** Capacity of the window (`MAX_HISTORY`). */
  const MAX_HISTORY: nat := 10000

  /** The most recent `min(n, |s|)` elements of `s`, in their original order. */
  function LastN<T>(s: seq<T>, n: nat): (r: seq<T>)
    ensures |r| == if |s| <= n then |s| else n
    ensures s == s[..|s| - |r|] + r
  {
    if |s| <= n then s else s[|s| - n..]
  }

  /** Appending `x` to a window that is within capacity keeps it within capacity, puts `x`
      last, and evicts at most one element (the oldest) without reordering the rest. */
  lemma AppendToWindow<T>(w: seq<T>, x: T, n: nat)
    requires |w| <= n && n > 0
    ensures var r := LastN(w + [x], n);
      |r| <= n && r[|r| - 1] == x &&
      (if |w| < n then r == w + [x] else r == w[1..] + [x])
  {
  }

  /** Trimming before each append loses nothing: the window after appending `x` to the
      trimmed window `LastN(s, n)` is the trimmed window of the whole history `s + [x]`. */
  lemma LastNAppend<T>(s: seq<T>, x: T, n: nat)
    ensures LastN(LastN(s, n) + [x], n) == LastN(s + [x], n)
  {
  }
}

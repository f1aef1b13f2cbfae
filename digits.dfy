/** Tick digits: reading the last character of a quote, and counting digits over a window. */
module Digits {

  /** A decimal digit 0..9. */
  type Digit = d: int | 0 <= d <= 9

  /** What `parseInt` makes of the last character of a quote: a digit, or NaN when that
      character is not an ASCII digit (also when the quote is empty). A NaN is appended to
      the window like any digit. */
  datatype Reading = Num(value: Digit) | NaN

  predicate IsDecimalDigit(c: char) {
    '0' <= c <= '9'
  }

  /** The character that writes digit `d`. */
  function DigitChar(d: Digit): (c: char)
    ensures IsDecimalDigit(c)
  {
    ('0' as int + d) as char
  }

  /** The reading of one tick: the last character of its decimal quote, parsed as a digit. */
  function ExtractReading(quote: string): (r: Reading)
    ensures r.Num? <==> |quote| > 0 && IsDecimalDigit(quote[|quote| - 1])
    ensures r.Num? ==> DigitChar(r.value) == quote[|quote| - 1]
  {
    if |quote| == 0 then NaN
    else
      var c := quote[|quote| - 1];
      if IsDecimalDigit(c) then Num(c as int - '0' as int) else NaN
  }

  /** Whatever precedes it, a quote written with final digit `d` reads as `d`. */
  lemma ExtractLastDigit(prefix: string, d: Digit)
    ensures ExtractReading(prefix + [DigitChar(d)]) == Num(d)
  {
  }

  /** The number of times digit `d` occurs in `w`. */
  function Occurrences(w: seq<Reading>, d: Digit): nat
  {
    if w == [] then 0
    else Occurrences(w[..|w| - 1], d) + (if w[|w| - 1] == Num(d) then 1 else 0)
  }

  /** The number of entries of `w` that are digits (not NaN). */
  function NumCount(w: seq<Reading>): nat
  {
    if w == [] then 0
    else NumCount(w[..|w| - 1]) + (if w[|w| - 1].Num? then 1 else 0)
  }

  /** The ten digit counts of a window, indexed by digit. */
  function Histogram(w: seq<Reading>): seq<nat>
  {
    seq(10, i requires 0 <= i < 10 => Occurrences(w, i))
  }

  function Sum(s: seq<nat>): nat
  {
    if s == [] then 0 else s[0] + Sum(s[1..])
  }

  lemma {:induction false} SumAllZero(s: seq<nat>)
    requires forall i :: 0 <= i < |s| ==> s[i] == 0
    ensures Sum(s) == 0
  {
    if s != [] {
      SumAllZero(s[1..]);
    }
  }

  lemma {:induction false} SumIncrement(s: seq<nat>, k: nat)
    requires k < |s|
    ensures Sum(s[k := s[k] + 1]) == Sum(s) + 1
  {
    var t := s[k := s[k] + 1];
    if k == 0 {
      assert t[1..] == s[1..];
    } else {
      assert t[1..] == s[1..][k - 1 := s[k] + 1];
      SumIncrement(s[1..], k - 1);
    }
  }

  /** Appending a reading bumps exactly the count of its digit (nothing for NaN): the running
      counts an incremental aggregator would keep agree with full recomputation. */
  lemma HistogramAppend(w: seq<Reading>, r: Reading)
    ensures r.NaN? ==> Histogram(w + [r]) == Histogram(w)
    ensures r.Num? ==> Histogram(w + [r]) == Histogram(w)[r.value := Histogram(w)[r.value] + 1]
  {
  }

  /** The ten counts add up to the number of digit entries of the window. */
  lemma {:induction false} HistogramSum(w: seq<Reading>)
    ensures Sum(Histogram(w)) == NumCount(w)
  {
    if w == [] {
      SumAllZero(Histogram(w));
    } else {
      var v, r := w[..|w| - 1], w[|w| - 1];
      assert w == v + [r];
      HistogramSum(v);
      HistogramAppend(v, r);
      if r.Num? {
        SumIncrement(Histogram(v), r.value);
      }
    }
  }

  /** In a window holding no NaN, the counts add up to the window's length. */
  lemma {:induction false} NumCountAllDigits(w: seq<Reading>)
    requires forall i :: 0 <= i < |w| ==> w[i].Num?
    ensures NumCount(w) == |w|
  {
    if w != [] {
      NumCountAllDigits(w[..|w| - 1]);
    }
  }

  /** A digit's count is zero exactly when the digit does not occur in the window. */
  lemma {:induction false} OccurrencesZero(w: seq<Reading>, d: Digit)
    ensures Occurrences(w, d) == 0 <==> forall i :: 0 <= i < |w| ==> w[i] != Num(d)
  {
    if w != [] {
      var v := w[..|w| - 1];
      OccurrencesZero(v, d);
      assert forall i :: 0 <= i < |v| ==> v[i] == w[i];
    }
  }

  /** The frequency aggregator: a fresh ten-slot array, incremented once per digit of the window. */
  method CountDigits(w: seq<Reading>) returns (counts: seq<nat>)
    ensures |counts| == 10
    ensures counts == Histogram(w)
  {
    var a := new nat[10](_ => 0);
    var k := 0;
    while k < |w|
      invariant 0 <= k <= |w|
      invariant forall d: Digit :: a[d] == Occurrences(w[..k], d)
    {
      assert w[..k + 1][..k] == w[..k];
      match w[k] {
        case Num(d) => a[d] := a[d] + 1;
        case NaN =>
      }
      k := k + 1;
    }
    assert w[..k] == w;
    counts := a[..];
    assert forall i :: 0 <= i < 10 ==> counts[i] == Histogram(w)[i];
  }

  /** Frequency table of the window [0, 0, 1, 2, 2, 2]. */
  lemma HistogramExample()
    ensures Histogram([Num(0), Num(0), Num(1), Num(2), Num(2), Num(2)]) == [2, 1, 3, 0, 0, 0, 0, 0, 0, 0]
  {
    var w: seq<Reading> := [];
    assert Histogram(w) == [0, 0, 0, 0, 0, 0, 0, 0, 0, 0];
    HistogramAppend(w, Num(0));
    w := w + [Num(0)];
    HistogramAppend(w, Num(0));
    w := w + [Num(0)];
    HistogramAppend(w, Num(1));
    w := w + [Num(1)];
    HistogramAppend(w, Num(2));
    w := w + [Num(2)];
    HistogramAppend(w, Num(2));
    w := w + [Num(2)];
    HistogramAppend(w, Num(2));
    w := w + [Num(2)];
    assert w == [Num(0), Num(0), Num(1), Num(2), Num(2), Num(2)];
  }
}

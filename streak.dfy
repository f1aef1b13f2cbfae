/** The streak rule: whether the digits before the newest one form a streak, and whether the
    newest one then went the predicted way. */
module Streak {
  import opened Digits

  datatype Direction = Over | Under {
    /** The strategy's direction string. */
    function Name(): string {
      match this
      case Over => "over"
      case Under => "under"
    }

    /** The other direction. */
    function Toggled(): (d: Direction)
      ensures d != this
    {
      match this
      case Over => Under
      case Under => Over
    }
  }

  /** Toggling twice restores the direction. */
  lemma ToggledTwice(d: Direction)
    ensures d.Toggled().Toggled() == d
  {
  }

  /** A strategy: bet `direction` after `streak` digits on the other side of `thresholdDigit`. */
  datatype Strategy = Strategy(direction: Direction, thresholdDigit: int, streak: nat)

  /** The strategy the engine starts with. */
  const InitialStrategy := Strategy(Over, 5, 4)

  datatype Outcome = Win | Loss

  /** What one evaluation found: too few digits, a streak that did not hold, or a streak
      followed by a winning or losing digit. */
  datatype Evaluation = InsufficientHistory | NotMet | Met(outcome: Outcome)

  /** A digit continues an `Over` streak when it is at most the threshold and an `Under`
      streak when it is at least the threshold (both inclusive). NaN continues nothing. */
  predicate Continues(dir: Direction, threshold: int, r: Reading)
  {
    match r
    case NaN => false
    case Num(d) => if dir == Over then d <= threshold else d >= threshold
  }

  /** The digit after a streak wins an `Over` bet when it is above the threshold and an
      `Under` bet when it is below it (both strict). NaN wins nothing. */
  predicate Beats(dir: Direction, threshold: int, r: Reading)
  {
    match r
    case NaN => false
    case Num(d) => if dir == Over then d > threshold else d < threshold
  }

  /** `s.every(d => ...)` with the streak comparison. */
  predicate Every(s: seq<Reading>, dir: Direction, threshold: int)
  {
    s == [] || (Continues(dir, threshold, s[0]) && Every(s[1..], dir, threshold))
  }

  lemma {:induction false} EveryIff(s: seq<Reading>, dir: Direction, threshold: int)
    ensures Every(s, dir, threshold) <==> forall i :: 0 <= i < |s| ==> Continues(dir, threshold, s[i])
  {
    if s != [] {
      EveryIff(s[1..], dir, threshold);
      assert forall i :: 1 <= i < |s| ==> s[1..][i - 1] == s[i];
    }
  }

  /** The rule, stated on window positions: with at least `streak + 1` digits, the `streak`
      digits just before the newest must all continue the streak, and the newest one decides. */
  function Assess(w: seq<Reading>, s: Strategy): Evaluation
  {
    if |w| < s.streak + 1 then InsufficientHistory
    else if forall i :: |w| - 1 - s.streak <= i < |w| - 1 ==> Continues(s.direction, s.thresholdDigit, w[i])
    then Met(if Beats(s.direction, s.thresholdDigit, w[|w| - 1]) then Win else Loss)
    else NotMet
  }

  /** The slices the engine takes (`digits.slice(-(streak+1))`, then its first `streak`
      entries and its entry `streak`) are the streak and the newest digit of `Assess`. */
  lemma MatchSlices(w: seq<Reading>, s: Strategy)
    requires |w| >= s.streak + 1
    ensures var lastDigits := w[|w| - (s.streak + 1)..];
      |lastDigits| == s.streak + 1 &&
      lastDigits[s.streak] == w[|w| - 1] &&
      (Assess(w, s).NotMet? <==> !Every(lastDigits[..s.streak], s.direction, s.thresholdDigit)) &&
      (Assess(w, s).Met? ==>
        Assess(w, s).outcome == if Beats(s.direction, s.thresholdDigit, lastDigits[s.streak]) then Win else Loss)
  {
    var lastDigits := w[|w| - (s.streak + 1)..];
    var m := lastDigits[..s.streak];
    EveryIff(m, s.direction, s.thresholdDigit);
    assert forall j :: 0 <= j < |m| ==> m[j] == w[|w| - 1 - s.streak + j];
    if !Assess(w, s).NotMet? {
      forall j | 0 <= j < |m| ensures Continues(s.direction, s.thresholdDigit, m[j]) {
        assert m[j] == w[|w| - 1 - s.streak + j];
      }
    } else {
      var i :| |w| - 1 - s.streak <= i < |w| - 1 && !Continues(s.direction, s.thresholdDigit, w[i]);
      assert m[i - (|w| - 1 - s.streak)] == w[i];
    }
  }

  /** The newest digit is never part of the streak: whatever it is, the condition is the same. */
  lemma NewestNotInStreak(w: seq<Reading>, x: Reading, y: Reading, s: Strategy)
    ensures Assess(w + [x], s).NotMet? == Assess(w + [y], s).NotMet?
    ensures Assess(w + [x], s).InsufficientHistory? == Assess(w + [y], s).InsufficientHistory?
  {
    assert forall i :: 0 <= i < |w| ==> (w + [x])[i] == w[i] == (w + [y])[i];
  }

  /** When the streak holds, a newest digit equal to the threshold is a loss in both directions.
      This unfolds `Assess`; that the engine's own comparisons (`Every`, raw `>` and `<`) agree
      with `Assess` is what `Evaluate`'s contract proves. */
  lemma ThresholdDigitLoses(w: seq<Reading>, s: Strategy)
    requires Assess(w, s).Met?
    requires w[|w| - 1].Num? && w[|w| - 1].value == s.thresholdDigit
    ensures Assess(w, s).outcome == Loss
  {
  }

  /** When the streak holds, the outcome is a win exactly when the newest digit is strictly
      beyond the threshold in the predicted direction. Like `ThresholdDigitLoses`, this unfolds
      `Assess`; the engine is tied to `Assess` by `Evaluate`'s contract. */
  lemma WinIffStrictlyBeyond(w: seq<Reading>, s: Strategy)
    requires Assess(w, s).Met?
    ensures Assess(w, s).outcome == Win <==>
      w[|w| - 1].Num? &&
      (if s.direction == Over then w[|w| - 1].value > s.thresholdDigit
       else w[|w| - 1].value < s.thresholdDigit)
  {
  }

  /** Over 5 after 4: digits 1, 3, 2, 4 hold the streak and 7 wins. */
  lemma ScenarioOverWin()
    ensures Assess([Num(1), Num(3), Num(2), Num(4), Num(7)], InitialStrategy) == Met(Win)
  {
    var w := [Num(1), Num(3), Num(2), Num(4), Num(7)];
    assert forall i :: 0 <= i < 4 ==> Continues(Over, 5, w[i]);
  }

  /** Over 5 after 4: the final 5 is the outcome digit, not part of the streak, and it loses. */
  lemma ScenarioOverEqualLoses()
    ensures Assess([Num(1), Num(3), Num(2), Num(4), Num(5)], InitialStrategy) == Met(Loss)
  {
    var w := [Num(1), Num(3), Num(2), Num(4), Num(5)];
    assert forall i :: 0 <= i < 4 ==> Continues(Over, 5, w[i]);
  }

  /** Under 4 after 2: digits 6, 5 hold the streak and 3 wins. */
  lemma ScenarioUnderWin()
    ensures Assess([Num(6), Num(5), Num(3)], Strategy(Under, 4, 2)) == Met(Win)
  {
    var w := [Num(6), Num(5), Num(3)];
    assert forall i :: 0 <= i < 2 ==> Continues(Under, 4, w[i]);
  }

  /** Flipping that strategy to under 5 re-scores the same window: 1 is below 5, so no streak. */
  lemma ScenarioToggledRescore()
    ensures Assess([Num(1), Num(3), Num(2), Num(4), Num(7)], InitialStrategy.(direction := Under)) == NotMet
  {
    var w := [Num(1), Num(3), Num(2), Num(4), Num(7)];
    assert !Continues(Under, 5, w[0]);
  }

  /** A streak of 4 cannot be judged on three digits. */
  lemma ScenarioShortHistory()
    ensures Assess([Num(2), Num(2), Num(2)], InitialStrategy) == InsufficientHistory
  {
  }
}

/** The signal engine: the state the component keeps and the steps that change it. */
module Engine {
  import opened Digits
  import opened Window
  import opened Streak
  import opened Scoring
  import ViewMode

  datatype Option<T> = None | Some(value: T)

  /** Upper-casing of one character; only ASCII letters change. */
  function UpperChar(c: char): char {
    if 'a' <= c <= 'z' then (c as int - 'a' as int + 'A' as int) as char else c
  }

  /** `toUpperCase` on ASCII text: the same length, each character upper-cased. */
  function UpperAscii(s: string): (r: string)
    ensures |r| == |s|
    ensures forall i :: 0 <= i < |s| ==> r[i] == UpperChar(s[i])
  {
    if s == [] then [] else [UpperChar(s[0])] + UpperAscii(s[1..])
  }

  /** The signal raised for a direction: its name upper-cased. */
  function SignalText(d: Direction): string {
    UpperAscii(d.Name())
  }

  lemma SignalTexts()
    ensures SignalText(Over) == "OVER" && SignalText(Under) == "UNDER"
  {
  }

  class SignalEngine {
    /** The rolling window, oldest first. */
    var digits: seq<Reading>
    var strategy: Strategy
    var winStats: WinStats
    /** The current alert: the upper-cased direction, or none. */
    var signal: Option<string>
    var mode: ViewMode.Mode
    /** The digit counts of the window, indexed by digit. */
    var counts: seq<nat>

    /** Every reading ever appended, oldest first. */
    ghost var history: seq<Reading>
    /** Every evaluation ever run, oldest first. */
    ghost var evaluations: seq<Evaluation>

    /** The window is the newest `MAX_HISTORY` readings of the whole history. */
    ghost predicate WindowValid()
      reads this
    {
      digits == LastN(history, MAX_HISTORY) && |digits| <= MAX_HISTORY
    }

    /** The tally is the tally of all evaluations so far (hence balanced, by `TallyCounts`). */
    ghost predicate TallyValid()
      reads this
    {
      winStats == Tally(evaluations)
    }

    ghost predicate Valid()
      reads this
    {
      WindowValid() && TallyValid() && counts == Histogram(digits)
    }

    /** A valid engine's tally is balanced and its window within capacity. */
    lemma TallyBalanced()
      requires Valid()
      ensures winStats.Balanced() && |digits| <= MAX_HISTORY
    {
      TallyCounts(evaluations);
    }

    /** `winStats` and `signal` are what evaluating the current window under the current
        strategy makes of `prevStats` and `prevSignal`: too short a window leaves both alone,
        an unmet streak clears the signal, a met streak records its outcome and raises the
        signal. */
    ghost predicate ScoredFrom(prevStats: WinStats, prevSignal: Option<string>)
      reads this
    {
      match Assess(digits, strategy)
      case InsufficientHistory => winStats == prevStats && signal == prevSignal
      case NotMet => winStats == prevStats && signal == None
      case Met(o) => winStats == prevStats.Record(o) && signal == Some(SignalText(strategy.direction))
    }

    /** The state right after mounting: nothing seen yet, the default strategy, live view. */
    constructor ()
      ensures Valid()
      ensures digits == [] && history == [] && evaluations == []
      ensures strategy == InitialStrategy && winStats == InitialStats
      ensures signal == None && mode == ViewMode.Live
    {
      digits := [];
      strategy := InitialStrategy;
      winStats := InitialStats;
      signal := None;
      mode := ViewMode.Live;
      history := [];
      evaluations := [];
      var c := CountDigits([]);
      counts := c;
      new;
      assert WindowValid();
      assert TallyValid();
    }

    /** The window updater: copy, append, and drop the oldest entry beyond capacity. */
    method AppendReading(r: Reading)
      requires WindowValid()
      modifies this
      ensures WindowValid()
      ensures history == old(history) + [r]
      ensures digits == LastN(old(digits) + [r], MAX_HISTORY)
      ensures strategy == old(strategy) && winStats == old(winStats) && signal == old(signal)
      ensures mode == old(mode) && counts == old(counts) && evaluations == old(evaluations)
    {
      var updated := digits + [r];
      if |updated| > MAX_HISTORY {
        updated := updated[1..];
      }
      digits := updated;
      history := history + [r];
      LastNAppend(old(history), r, MAX_HISTORY);
    }

    /** The streak effect: score the newest `streak + 1` digits of the window. */
    method Evaluate()
      requires TallyValid()
      modifies this
      ensures TallyValid()
      ensures evaluations == old(evaluations) + [Assess(digits, strategy)]
      ensures ScoredFrom(old(winStats), old(signal))
      ensures digits == old(digits) && history == old(history) && strategy == old(strategy)
      ensures mode == old(mode) && counts == old(counts)
    {
      ghost var e := Assess(digits, strategy);
      evaluations := evaluations + [e];
      TallyAppend(old(evaluations), e);
      var streak, threshold := strategy.streak, strategy.thresholdDigit;
      if |digits| < streak + 1 {
        return;
      }
      MatchSlices(digits, strategy);
      var lastDigits := digits[|digits| - (streak + 1)..];
      var streakDigits := lastDigits[..streak];
      var next := lastDigits[streak];
      var conditionMet := false;
      if strategy.direction == Over {
        conditionMet := Every(streakDigits, Over, threshold);
        if conditionMet {
          if next.Num? && next.value > threshold {
            assert e == Met(Win);
            winStats := winStats.Record(Win);
          } else {
            assert e == Met(Loss);
            winStats := winStats.Record(Loss);
          }
        }
      } else {
        conditionMet := Every(streakDigits, Under, threshold);
        if conditionMet {
          if next.Num? && next.value < threshold {
            assert e == Met(Win);
            winStats := winStats.Record(Win);
          } else {
            assert e == Met(Loss);
            winStats := winStats.Record(Loss);
          }
        }
      }
      if conditionMet {
        assert e.Met? && winStats == old(winStats).Record(e.outcome);
        signal := Some(SignalText(strategy.direction));
      } else {
        assert e.NotMet? && winStats == old(winStats);
        signal := None;
      }
    }

    /** One tick: read its digit, append it to the window, score the window, recount digits. */
    method OnTick(quote: string)
      requires Valid()
      modifies this
      ensures Valid()
      ensures history == old(history) + [ExtractReading(quote)]
      ensures digits == LastN(old(digits) + [ExtractReading(quote)], MAX_HISTORY)
      ensures evaluations == old(evaluations) + [Assess(digits, strategy)]
      ensures ScoredFrom(old(winStats), old(signal))
      ensures strategy == old(strategy) && mode == old(mode)
    {
      var digit := ExtractReading(quote);
      AppendReading(digit);
      Evaluate();
      var c := CountDigits(digits);
      counts := c;
    }

    /** Replacing the strategy re-scores the current window under the new one (the streak
        effect depends on the strategy as well as on the window). */
    method SetStrategy(s: Strategy)
      requires Valid()
      modifies this
      ensures Valid()
      ensures strategy == s
      ensures evaluations == old(evaluations) + [Assess(digits, s)]
      ensures ScoredFrom(old(winStats), old(signal))
      ensures digits == old(digits) && history == old(history)
      ensures counts == old(counts) && mode == old(mode)
    {
      strategy := s;
      Evaluate();
    }

    /** The direction button: flip over/under, keep threshold and streak, and re-score. */
    method ToggleDirection()
      requires Valid()
      modifies this
      ensures Valid()
      ensures strategy == old(strategy).(direction := old(strategy).direction.Toggled())
      ensures evaluations == old(evaluations) + [Assess(digits, strategy)]
      ensures ScoredFrom(old(winStats), old(signal))
      ensures digits == old(digits) && history == old(history)
      ensures counts == old(counts) && mode == old(mode)
    {
      SetStrategy(strategy.(direction := strategy.direction.Toggled()));
    }

    /** The view-mode button: move to the next mode of the cycle. */
    method ToggleMode()
      modifies this`mode
      ensures mode == ViewMode.Next(old(mode))
    {
      var modes := ViewMode.Modes;
      var currentIdx := ViewMode.IndexOf(mode);
      mode := modes[(currentIdx + 1) % |modes|];
    }
  }

  /** A client run: ticks ending in 1, 3, 2, 4, 7 under the initial strategy (over 5 after 4)
      leave a tally of one win and raise the OVER signal. */
  method ScenarioTicks()
  {
    var e := new SignalEngine();
    e.OnTick("1");
    assert e.digits == [Num(1)];
    e.OnTick("3");
    assert e.digits == [Num(1), Num(3)];
    e.OnTick("2");
    assert e.digits == [Num(1), Num(3), Num(2)];
    e.OnTick("4");
    assert e.digits == [Num(1), Num(3), Num(2), Num(4)];
    assert e.winStats == InitialStats && e.signal == None;
    e.OnTick("7");
    assert e.digits == [Num(1), Num(3), Num(2), Num(4), Num(7)];
    ScenarioOverWin();
    SignalTexts();
    assert e.winStats == WinStats(1, 1, 0) && e.signal == Some("OVER");
  }
}

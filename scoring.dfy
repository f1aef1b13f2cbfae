/** The win/loss tally kept across evaluations. */
module Scoring {
  import opened Streak

  /** `winStats`: how many met streaks there were, and how many of them won or lost. */
  datatype WinStats = WinStats(total: nat, wins: nat, losses: nat) {
    predicate Balanced() {
      total == wins + losses
    }

    /** The updater applied when a streak was met with outcome `o`. */
    function Record(o: Outcome): WinStats {
      match o
      case Win => this.(wins := wins + 1, total := total + 1)
      case Loss => this.(losses := losses + 1, total := total + 1)
    }

    /** No counter of `this` is above the same counter of `other`. */
    predicate AtMost(other: WinStats) {
      total <= other.total && wins <= other.wins && losses <= other.losses
    }
  }

  const InitialStats := WinStats(0, 0, 0)

  /** The tally after one evaluation: only a met streak is recorded. */
  function Score(t: WinStats, e: Evaluation): WinStats {
    if e.Met? then t.Record(e.outcome) else t
  }

  /** The tally after a sequence of evaluations, oldest first, from the initial tally. */
  function Tally(es: seq<Evaluation>): WinStats {
    if es == [] then InitialStats else Score(Tally(es[..|es| - 1]), es[|es| - 1])
  }

  /** How many of the evaluations `es` equal `e`. */
  function CountOf(es: seq<Evaluation>, e: Evaluation): nat {
    if es == [] then 0
    else CountOf(es[..|es| - 1], e) + (if es[|es| - 1] == e then 1 else 0)
  }

  /** Recording an outcome raises `total` by one and exactly one of `wins` and `losses` by one,
      so a balanced tally stays balanced. */
  lemma RecordStep(t: WinStats, o: Outcome)
    ensures var r := t.Record(o);
      r.total == t.total + 1 &&
      (o == Win ==> r.wins == t.wins + 1 && r.losses == t.losses) &&
      (o == Loss ==> r.losses == t.losses + 1 && r.wins == t.wins) &&
      (t.Balanced() ==> r.Balanced())
  {
  }

  /** The tally counts exactly the winning and the losing evaluations, so it is always
      balanced, and evaluations without a met streak never show up in it. */
  lemma {:induction false} TallyCounts(es: seq<Evaluation>)
    ensures Tally(es).wins == CountOf(es, Met(Win))
    ensures Tally(es).losses == CountOf(es, Met(Loss))
    ensures Tally(es).total == CountOf(es, Met(Win)) + CountOf(es, Met(Loss))
    ensures Tally(es).Balanced()
  {
    if es != [] {
      TallyCounts(es[..|es| - 1]);
    }
  }

  /** Appending one evaluation applies `Score` to the previous tally. */
  lemma TallyAppend(es: seq<Evaluation>, e: Evaluation)
    ensures Tally(es + [e]) == Score(Tally(es), e)
  {
  }

  /** The counters never decrease as evaluations accumulate. */
  lemma {:induction false} TallyMonotone(es: seq<Evaluation>, more: seq<Evaluation>)
    ensures Tally(es).AtMost(Tally(es + more))
  {
    if more == [] {
      assert es + more == es;
    } else {
      var front := more[..|more| - 1];
      TallyMonotone(es, front);
      assert es + more == (es + front) + [more[|more| - 1]];
      TallyAppend(es + front, more[|more| - 1]);
    }
  }
}

/** The three view modes and the toggle that cycles through them. */
module ViewMode {

  datatype Mode = Live | Signal | Stats

  /** The modes in toggle order. */
  const Modes: seq<Mode> := [Live, Signal, Stats]

  /** `modes.indexOf(mode)`: every mode is in the list, so the index is never -1. */
  function IndexOf(m: Mode): (i: nat)
    ensures i < |Modes| && Modes[i] == m
  {
    match m
    case Live => 0
    case Signal => 1
    case Stats => 2
  }

  /** The mode after one toggle: the next one in the list, wrapping around. */
  function Next(m: Mode): Mode {
    Modes[(IndexOf(m) + 1) % |Modes|]
  }

  /** The toggle goes live, then signal, then stats, then live again. */
  lemma NextCycle()
    ensures Next(Live) == Signal && Next(Signal) == Stats && Next(Stats) == Live
  {
  }

  /** The toggle has period exactly three: three toggles restore the mode, fewer never do. */
  lemma PeriodThree(m: Mode)
    ensures Next(Next(Next(m))) == m
    ensures Next(m) != m && Next(Next(m)) != m
  {
  }
}

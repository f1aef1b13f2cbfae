# Over/Under digit-streak signal engine

This project models the signal engine inside the `OverUnderSniper` component (`src/App.jsx`).
The component receives price ticks for a volatility index and reads the last decimal digit of
each quote. It keeps the last 10000 digits. It runs a streak rule over them: "after `streak`
digits at or below (OVER) or at or above (UNDER) a threshold digit, bet that the next digit
goes past it". It keeps a win/loss tally of those bets, counts how often each digit occurs,
and cycles between three view modes.

The component's state (`digits`, `strategy`, `winStats`, `signal`, `mode` and the digit
counts behind `historyStats`) becomes the fields of the class `Engine.SignalEngine`. React's
effects become explicit, sequential method calls:

- `OnTick` is the socket's tick handler (read the digit, run the window updater), followed by
  the streak effect and the frequency effect. The effects run in that order.
- `SetStrategy` / `ToggleDirection` change the strategy and then rerun the streak effect,
  because the effect depends on `strategy` as well as on `digits`.
- `ToggleMode` is the view-mode button.

Two ghost fields hold what the code only implies. `history` is every reading ever appended.
`evaluations` is every evaluation ever run. The class invariant `Valid()` says three things:

- the window is the newest 10000 readings of the history;
- the tally is `Tally(evaluations)`, and so it is balanced (`TallyCounts`);
- the counts are the histogram of the window.

Modules:

- `Digits`: the digit a quote yields (`Reading`: a digit, or NaN), digit counting.
- `Window`: the 10000-entry FIFO (`LastN`).
- `Streak`: strategy, the reference rule `Assess` and its properties, the worked scenarios.
- `Scoring`: the win/loss tally.
- `ViewMode`: the three modes and their cycle.
- `Engine`: the engine class.

Behaviour of the code worth noting:

- A quote whose last character is not a digit is not rejected. `parseInt` yields NaN, and
  the NaN is appended to the window like a digit. The model keeps it as `Reading.NaN`. NaN
  fails every comparison, so it never continues a streak and never wins. `counts[NaN]++` does
  not touch the ten digit slots, so the counts sum to the number of digit entries. They sum to
  the window length only when the window holds no NaN (`HistogramSum`, `NumCountAllDigits`).
- A strategy change re-scores the current window straight away (dependency list at
  `src/App.jsx:79`). It is not deferred to the next tick, so toggling the direction can record
  one more win or loss on the same digits.
- Changing the instrument (`src/App.jsx:25-44`) replaces the socket only. It does not clear
  `digits` or `winStats`, so history carries over between instruments.
- No strategy is ever validated. The only strategy change the code offers flips the
  direction. The model therefore takes any threshold (an `int`) and any streak length (a `nat`).

## Model

| member | source | states |
|---|---|---|
| `Digits.ExtractReading` | src/App.jsx:34 | the reading is a digit exactly when the quote is non-empty and ends in an ASCII digit, and then that digit is the one its last character writes; otherwise NaN |
| `Digits.ExtractLastDigit` | src/App.jsx:34 | any quote whose final character writes `d` reads as `d`, whatever comes before it |
| `Digits.CountDigits` | src/App.jsx:82-83 | the counting loop over a fresh ten-slot array returns ten counts, slot `d` holding the number of occurrences of digit `d` in the window (the window's histogram) |
| `Digits.HistogramAppend` | src/App.jsx:82-83 | appending a digit bumps exactly its own count by one; appending NaN changes no count (incremental counts equal recomputation) |
| `Digits.HistogramSum` | src/App.jsx:82-84 | the ten counts add up to the number of digit entries of the window |
| `Digits.NumCountAllDigits` | src/App.jsx:82-84 | for a window with no NaN, that number is the window length |
| `Digits.OccurrencesZero` | src/App.jsx:82-83 | a digit's count is 0 if and only if the digit occurs nowhere in the window |
| `Digits.HistogramExample` | src/App.jsx:82-83 | the window 0,0,1,2,2,2 counts 2, 1, 3 for digits 0, 1, 2 and 0 for the rest |
| `Window.LastN` | src/App.jsx:35-38 | the kept window has `min(n, length)` elements and is a suffix of the sequence |
| `Window.AppendToWindow` | src/App.jsx:35-38 | appending to a window within capacity stays within capacity, puts the new entry last, and either keeps every old entry or drops only the oldest one (only when the window was full), order preserved |
| `Window.LastNAppend` | src/App.jsx:35-38 | trimming after every append gives the same window as trimming the whole history once, so the window is always the newest 10000 readings received |
| `Streak.Direction.Toggled` | src/App.jsx:152 | the toggled direction differs from the current one |
| `Streak.ToggledTwice` | src/App.jsx:152 | toggling the direction twice restores it |
| `Streak.Every` | src/App.jsx:54-63 | definition; no contract (`match.every(...)` with the inclusive streak comparison; characterised by `EveryIff`) |
| `Streak.EveryIff` | src/App.jsx:54-63 | the `every` test holds exactly when every element of the slice continues the streak |
| `Streak.Assess` | src/App.jsx:47-71 | definition; no contract (the reference rule on window positions, which `MatchSlices` and `Evaluate` tie to the code's slices and comparisons) |
| `Streak.MatchSlices` | src/App.jsx:47-50 | with at least `streak + 1` digits, the tail slice has `streak + 1` entries and its last one is the newest digit; its first `streak` entries pass `every` exactly when the condition is met, and a met streak's outcome is a win exactly when that newest digit beats the threshold |
| `Streak.NewestNotInStreak` | src/App.jsx:48-54 | the newest digit never takes part in the match: replacing it changes neither "insufficient history" nor "condition not met" |
| `Streak.ThresholdDigitLoses` | src/App.jsx:56-59 | when the streak is met, a newest digit equal to the threshold is a loss, in both directions |
| `Streak.WinIffStrictlyBeyond` | src/App.jsx:53-71 | when the streak is met, the bet wins exactly when the newest digit is strictly above (over) or strictly below (under) the threshold |
| `Streak.ScenarioOverWin` | src/App.jsx:53-60 | over 5 after 4: digits 1,3,2,4,7 meet the streak and win |
| `Streak.ScenarioOverEqualLoses` | src/App.jsx:53-60 | over 5 after 4: digits 1,3,2,4,5 meet the streak and lose (5 is not above 5) |
| `Streak.ScenarioUnderWin` | src/App.jsx:62-69 | under 4 after 2: digits 6,5,3 meet the streak and win |
| `Streak.ScenarioToggledRescore` | src/App.jsx:152 | flipping to under 5 re-scores 1,3,2,4,7 as no streak |
| `Streak.ScenarioShortHistory` | src/App.jsx:47 | three digits are too few for a streak of 4 |
| `Scoring.WinStats.Record` | src/App.jsx:57-68 | definition; no contract (the `setWinStats` updaters; their effect is stated by `RecordStep`) |
| `Scoring.RecordStep` | src/App.jsx:57-68 | recording a result raises `total` by one and exactly one of `wins` (on a win) or `losses` (on a loss) by one, keeping a balanced tally balanced |
| `Scoring.TallyCounts` | src/App.jsx:55-70 | the tally's wins and losses are the numbers of winning and losing evaluations, its total is their sum (`total == wins + losses`); unmet and too-short evaluations count nowhere |
| `Scoring.TallyAppend` | src/App.jsx:55-70 | one more evaluation changes the tally only through that evaluation |
| `Scoring.TallyMonotone` | src/App.jsx:55-70 | no counter ever decreases as evaluations accumulate |
| `ViewMode.IndexOf` | src/App.jsx:89-90 | every mode is found in the mode list, at an index that holds it |
| `ViewMode.Next` | src/App.jsx:91 | definition; no contract (the next mode in list order, wrapping; stated by `NextCycle` and `PeriodThree`) |
| `ViewMode.NextCycle` | src/App.jsx:88-91 | the toggle goes live to signal to stats to live |
| `ViewMode.PeriodThree` | src/App.jsx:88-91 | three toggles restore the mode, and one or two never do |
| `Engine.UpperAscii` | src/App.jsx:74 | upper-casing keeps the length and upper-cases each character |
| `Engine.SignalText` | src/App.jsx:74 | definition; no contract (the upper-cased direction name; its values are stated by `SignalTexts`) |
| `Engine.SignalTexts` | src/App.jsx:74 | the signals raised are "OVER" and "UNDER" |
| `Engine.SignalEngine.constructor` | src/App.jsx:11-22 | the initial state: empty window, strategy over 5 after 4, tally 0/0/0, no signal, live mode, all counts zero |
| `Engine.SignalEngine.TallyBalanced` | src/App.jsx:55-70 | in every valid state `total == wins + losses` and the window holds at most 10000 entries |
| `Engine.SignalEngine.AppendReading` | src/App.jsx:35-38 | the new window is the newest 10000 entries of the old window plus the new reading, and nothing else changes |
| `Engine.SignalEngine.Evaluate` | src/App.jsx:46-79 | scores the window: too short leaves tally and signal untouched; an unmet streak keeps the tally and clears the signal; a met streak records its win or loss and sets the signal to the upper-cased direction; the window, strategy, mode and counts do not change |
| `Engine.SignalEngine.OnTick` | src/App.jsx:33-86 | a tick appends its reading to the window (evicting the oldest past 10000), scores the new window as `Evaluate` does, leaves the counts equal to the new window's histogram, and keeps strategy and mode |
| `Engine.SignalEngine.SetStrategy` | src/App.jsx:46-79 | replacing the strategy re-scores the unchanged window under the new strategy, exactly as `Evaluate` does |
| `Engine.SignalEngine.ToggleDirection` | src/App.jsx:152 | flips over/under, keeps threshold and streak, and re-scores the window under the flipped strategy |
| `Engine.SignalEngine.ToggleMode` | src/App.jsx:88-92 | the mode becomes the next one of the cycle |
| `Engine.ScenarioTicks` | src/App.jsx:33-79 | no contract; a client run whose assertions show that ticks ending in 1, 3, 2, 4, 7 from the initial state leave the tally at one bet, one win, and the signal "OVER" |

## Left out

- WebSocket connection, the subscription message, JSON decoding and closing/reopening the socket on instrument change (`src/App.jsx:25-44`): network I/O. A tick is given to `OnTick` as its already-formatted quote string.
- The number-to-string conversion of the quote (`src/App.jsx:34`): it depends on JavaScript floating-point formatting (for example, dropped trailing zeros). The model starts from the decimal string.
- Relative frequencies `count / digits.length` (`src/App.jsx:84`) and the win-rate percentage with `toFixed` (`src/App.jsx:131`): floating point. On an empty window the frequency is 0/0, i.e. NaN. Only the integer counts are modelled.
- Audio playback on a signal (`src/App.jsx:23`, `src/App.jsx:75`, `src/App.jsx:96`): side-effecting I/O.
- All rendering, the UI components, the instrument selector over `VOLS` and the "last 30 digits" display (`src/App.jsx:3-7`, `src/App.jsx:94-156`): presentation.
- React's effect scheduling and batching of state updates: several ticks arriving before one render would be scored once in the component. The model scores every tick, one call each.
- `Engine.UpperAscii`: models `toUpperCase` on ASCII letters only. It is only ever applied to "over" and "under".

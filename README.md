# First-mover game round engine

A model of the round engine inside the "Early vs. Wait" dashboard script
`FirstMoverSimulation.py`. Two players, Alpha and Beta, each pick Early or Wait
every round. A fixed, total payoff table gives each pair a score pair, and a
strict comparison of the two scores gives the verdict: Alpha wins, Beta wins,
or Draw. The script keeps its state at module level, in these pieces:

- three outcome counters;
- a 2×2 count table of strategy pairs (the outcome matrix);
- three rolling win-rate lists;
- a run flag, a seed and a fixed round cap.

Each animation tick plays at most one round. The play/pause, reset and
set-seed controls change the same state.

The model has three modules:

- `Wrappers` (`wrappers.dfy`): `Option` and `Result`.
- `Game` (`game.dfy`), the pure part:
  - the strategies, the payoff table, the verdict rule and the dictionaries' key orders;
  - reference definitions of the counters, the matrix and the history, as
    functions of the sequence of pairs drawn since the last reset;
  - the end-of-run summary, with the most frequent pair chosen by first-wins maximum.
- `Simulation` (`engine.dfy`): class `Engine`. Its fields are the module-level
  state. `Step` is the non-drawing part of `update`. `Toggle`, `ResetData`,
  `ResetSim` and `UpdateSeed` are the control handlers. A ghost field
  `rounds` records the pairs drawn since the last reset. `Valid()` ties every
  stored counter, cell and history entry to the reference definitions over
  `rounds`, and bounds `|rounds|` by the cap.

The two drawn strategies are parameters of `Step`, so the caller chooses
them freely. The seed-text parse is a parameter of `UpdateSeed` of type
`Option<int>`. Percentages are exact `real`s.

The model keeps these behaviours of the code as they are, although a
tidier engine would differ:

- The history divides by the round count read before the round's
  increments, and the first round after a reset appends nothing. So after
  n ≥ 1 rounds there are n − 1 entries. The entry appended by round n sums
  to 100·n/(n − 1), which is always more than 100 and never equal to 100
  (`History`, `HistoryEntrySum`).
- At the cap, `update` does not leave the state alone: it clears the run
  flag. With a cap of 0 the summary divides by zero
  (`Summarize` returns `Failure(DivisionByZero)`; the flag is already cleared).
- Reset does not reseed. Only a successfully parsed seed reseeds, and it
  then resets.
- The payoff table is total and indexed directly, so there is no missing-entry
  error path.

## Model

| member | source | states |
|---|---|---|
| `Game.StrategyIndex` | FirstMoverSimulation.py:12-13 | the index of a strategy picks that strategy out of the strategy list (Early 0, Wait 1) |
| `Game.VerdictIndex` | FirstMoverSimulation.py:33 | each verdict has a position among the results keys, and that position holds it |
| `Game.PairIndex` | FirstMoverSimulation.py:34 | each (alpha, beta) pair has a position in the outcome matrix's insertion order, and that position holds exactly that pair |
| `Game.Judge` | FirstMoverSimulation.py:179-184 | Alpha wins iff alpha's score is strictly greater, Beta wins iff beta's is strictly greater, Draw iff the scores are equal |
| `Game.Resolve` | FirstMoverSimulation.py:20-25 | with the fixed table: Alpha wins exactly for (Early, Wait), Beta exactly for (Wait, Early), and Draw exactly when both play the same strategy |
| `Game.SumIncrement` | FirstMoverSimulation.py:177-184 | raising one cell or counter by one raises the dictionary's value sum by exactly one |
| `Game.TallySnoc` | FirstMoverSimulation.py:179-184 | one more round raises exactly its verdict's counter by one; the other two are unchanged |
| `Game.OccurrencesSnoc` | FirstMoverSimulation.py:175-177 | one more round raises exactly its pair's cell by one; the other three are unchanged |
| `Game.TallyTotal` | FirstMoverSimulation.py:161 | the three counters add up to the number of rounds played since the last reset |
| `Game.OccurrencesTotal` | FirstMoverSimulation.py:190 | the four matrix cells add up to the number of rounds played since the last reset |
| `Game.TallyFromOccurrences` | FirstMoverSimulation.py:175-184 | Alpha's wins equal the (Early, Wait) cell, Beta's wins the (Wait, Early) cell, and draws the sum of the two diagonal cells |
| `Game.HistorySnoc` | FirstMoverSimulation.py:209-212 | a round appends nothing when the pre-round count is zero, and otherwise one entry: the post-round counters over the pre-round count, times 100 |
| `Game.HistoryLength` | FirstMoverSimulation.py:209-212 | after n ≥ 1 rounds the history holds n − 1 entries, and none after zero rounds |
| `Game.HistoryAt` | FirstMoverSimulation.py:161-212 | entry k was written by round k + 2 and divides that round's post-increment counters by k + 1 |
| `Game.HistoryEntrySum` | FirstMoverSimulation.py:209-212 | the three values of entry k add up to 100·(k + 2)/(k + 1), which is more than 100 |
| `Game.RatesSum` | FirstMoverSimulation.py:210-212 | three rates over one divisor add up to 100 times the counter total over that divisor, and exceed 100 when the total exceeds the divisor |
| `Game.MostCommon` | FirstMoverSimulation.py:169 | the chosen index holds a maximal count, and every earlier index holds a strictly smaller count (first maximum wins) |
| `Game.Summarize` | FirstMoverSimulation.py:164-170 | fails with a division by zero exactly when no round was played; otherwise reports the total and counters, percentages p with p·total = 100·count that add up to 100, and the first pair of maximal count in key order together with that count |
| `Simulation.Engine.constructor` | FirstMoverSimulation.py:27-40 | the start-up state: the given cap and seed, all counters and cells zero, histories empty, paused |
| `Simulation.Engine.CountsAgree` | FirstMoverSimulation.py:161-162 | in every valid state, the counter sum equals the matrix sum equals the rounds played, which is at most the cap |
| `Simulation.Engine.SummaryAtCap` | FirstMoverSimulation.py:162-167 | at the cap, the summary fails exactly when the cap is zero, and otherwise its total is the cap |
| `Simulation.Engine.Step` | FirstMoverSimulation.py:157-212 | paused: nothing changes; at the cap: the flag is cleared, counts, matrix and history are kept, and the summary is reported; otherwise exactly the drawn pair's cell and the verdict's counter rise by one, the history gains an entry only when the pre-round count is positive, and the invariant and the cap bound are preserved |
| `Simulation.Engine.Toggle` | FirstMoverSimulation.py:107-108 | flips the run flag and changes nothing else |
| `Simulation.Engine.ResetData` | FirstMoverSimulation.py:91-105 | all counters and cells zero and all histories empty; the run flag and the seed are kept |
| `Simulation.Engine.ResetSim` | FirstMoverSimulation.py:110-112 | paused with all data cleared and the seed kept; the new state does not depend on the old one, so two resets equal one |
| `Simulation.Engine.UpdateSeed` | FirstMoverSimulation.py:114-121 | an unparsable seed changes nothing; a parsed one becomes the seed and is followed by a full reset |

## Left out

- Rendering: the figure, bars, heat map and its annotation labels, the win-rate lines, the legend and axes. These are display only. The heat-map label's "A"/"B"/"Draw" marker uses the same comparison as `Judge`.
- The buttons, the text box and their event wiring, and the animation timer. A tick is an explicit call to `Engine.Step`.
- The save-plot handler: a file dialog and an image write, which are I/O.
- Seeded pseudo-random drawing with weights 0.7/0.3 and 0.4/0.6, and `random.seed`. This is a foreign generator with floating-point weights. `Step` takes the drawn strategies as parameters, so determinism for one seed is not modelled.
- Parsing the seed text with `int(text.strip())`. `UpdateSeed` takes the parse result as `Option<int>`.
- Floating-point rounding and the printed formatting of percentages. The model uses exact reals.
- What the host does with the division-by-zero exception when the cap is 0. The model reports it as a `Failure`.
- Three separate win-rate lists: the model stores them as one sequence of triples (`WinRates`), because the code always appends to and clears all three together.

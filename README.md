# Synthetic versus passive signature validation: a verified model of the simulation

The simulation compares two ways of keeping confidence in detection signatures over a
number of days. Under synthetic validation a synthetic test fires every signature every
day unless the synthetic component breaks (probability `.1`). That day's confidence is then
0, and otherwise 100; it has no memory. Under passive validation a signature only fires
when real traffic happens to trigger it (probability `.1`). Its confidence starts at 0. It
rises by 30 on a day it fires and falls by 5 on a day it does not, clamped to [0, 100].
`simulate(amount_of_signatures, amount_of_days)` runs both regimes side by side. It returns
two tables with one row per day (`day`, then one column per signature).

The model has three modules:

- `Rules` (rules.dfy) holds the constants of simulate.py lines 37–50 and the update rule of a
  single value:
  - `SyntheticConfidence` gives a synthetic cell;
  - `PassiveStep` and `Clamp` give one passive day;
  - `Walk` gives the bounded trajectory of one passive signature over the days.

  The literal `.1` is modelled as the exact IEEE 754 double it denotes
  (3602879701896397 / 2^55), so `draw <= rate` decides exactly as the float comparison does.
- `DrawStream` (draws.dfy) says where in the stream of random draws each cell takes its
  draws. The loops call `random.random()` twice per (day, signature) cell: the synthetic
  draw first, then the passive draw. Signatures form the inner loop and days the outer
  loop. The module proves:
  - the draws are consumed in that order, without gaps;
  - no two draws are shared;
  - a run uses exactly the first `2 * days * signatures` draws.
- `Simulation` (simulation.dfy) holds the specification tables and the imperative method.
  - `SyntheticTable` and `PassiveTable` give the cell-by-cell closed form of the two tables.
  - `Simulate` is the imperative loop of the source. It has a `while` over days and, in
    `SimulateDay`, a `while` over signatures. Each day's row is built up signature by
    signature (the per-day dict), then appended to the table. The previous passive value is
    read back from the last row of the table built so far, as the source reads it with
    `tail(1)`.
  - The ensures of `Simulate` says the tables it returns are exactly `SyntheticTable` and
    `PassiveTable`. It also says the method takes exactly `DrawsNeeded` draws.
  - The lemmas next to the tables state the properties of a run:
    - every synthetic cell is 0 or 100, and 0 exactly when its own draw reports a
      malfunction;
    - a synthetic cell depends on nothing but that draw;
    - a passive cell is in [0, 100] and is 30 or 0 on day 1;
    - from day 2 on, a passive cell follows the clamped +30 / −5 rule;
    - a passive cell changes by between −5 and +30 from one day to the next;
    - a passive cell depends only on its own signature's outcomes up to that day.

The source does not check its arguments. With `amount_of_days < 1` the outer loop never
runs and both tables are empty. With `amount_of_signatures < 1` every row holds only its
day number. The model follows the code: `Iterations(bound)` is how many times
`while bound >= counter` runs from 1, and no input is rejected.

The randomness is a parameter: `draws: seq<real>` stands for the values `random.random()`
returns, in call order. The only requirement is that enough draws are supplied.

## Model

| member | source | states |
|---|---|---|
| `Rules.Clamp` | simulate.py:99-102 | The result always lies in [0, 100]. A value already in range is unchanged, a value above 100 becomes 100 and a value below 0 becomes 0. |
| `Rules.SyntheticConfidence` | simulate.py:85-89 | A synthetic value is always 0 or 100, and it is 0 exactly when the draw is at or below the malfunction rate. |
| `Rules.PassiveStep` | simulate.py:91-102 | The next passive value is in [0, 100]. From an in-range value, a fire never lowers it and adds at most 30, and a miss never raises it and removes at most 5. Away from the bounds it is exactly previous + 30 or previous − 5. |
| `Rules.Walk` | simulate.py:79-102 | A signature's passive trajectory has one value per day, and every value is in [0, 100]. |
| `Rules.WalkAt` | simulate.py:79-102 | Day i of the trajectory is one update step from day i − 1, or from the start value on the first day. |
| `Rules.WalkCausal` | simulate.py:79-97 | The trajectory's value on a day depends only on the fire outcomes up to and including that day. |
| `Rules.ClampExamples` | simulate.py:99-102 | Both clamp branches are reached: 95 plus a fire gives 100, and 2 minus a miss gives 0. |
| `DrawStream.DrawsNeededCount` | simulate.py:70-108 | A run takes 2 · days · signatures draws, and none when either argument is below 1. |
| `DrawStream.SyntheticDraw` | simulate.py:86 | The synthetic draw of a cell, and the passive draw right after it, lie inside the part of the stream the run uses. |
| `DrawStream.PassiveDraw` | simulate.py:92 | The passive draw of a cell lies inside the part of the stream the run uses. |
| `DrawStream.DrawOrder` | simulate.py:70-108 | The draws are consumed in order with no gaps: the first cell starts at 0, then the next signature, then the next day's first signature, and the last cell ends at 2 · days · signatures. |
| `DrawStream.DrawsDistinct` | simulate.py:76-104 | Different cells never share a draw, and no synthetic draw is also a passive draw. |
| `DrawStream.DrawOwner` | simulate.py:70-108 | Every position below 2 · days · signatures is the synthetic or the passive draw of some cell, so the run uses every one of those draws. |
| `Simulation.SyntheticRow` | simulate.py:76-89 | A day's synthetic values have one entry per signature, each 0 or 100. |
| `Simulation.PassiveRow` | simulate.py:76-102 | A day's passive values have one entry per signature, each in [0, 100]. |
| `Simulation.PassiveRowStep` | simulate.py:79-102 | Each passive value is one update step from the same signature's value the day before (0 on day 1), driven by the cell's own passive draw. |
| `Simulation.SyntheticTable` | simulate.py:65-110 | The synthetic table has one row per day, numbered 1, 2, …, with one value per signature, and every value is 0 or 100. |
| `Simulation.PassiveTable` | simulate.py:65-110 | The passive table has the same shape, and every value lies in [0, 100]. |
| `Simulation.SyntheticCell` | simulate.py:86-89 | A synthetic cell is 0 exactly when its synthetic draw is at or below the malfunction rate, and 100 exactly when it is not. |
| `Simulation.SyntheticCellIsLocal` | simulate.py:86-89 | Two runs, with any day counts and any other draws, that agree on a cell's synthetic draw agree on that synthetic cell. |
| `Simulation.PassiveFirstDay` | simulate.py:79-102 | On day 1 a passive cell is 30 if its draw fires and 0 if not: 0 − 5 clamps back to 0. |
| `Simulation.PassiveCell` | simulate.py:79-102 | From day 2 on, a passive cell is the clamp of the previous day's value plus 30 (fire) or minus 5 (miss). |
| `Simulation.PassiveDailyChange` | simulate.py:91-102 | From one day to the next, a fire raises a passive cell by 0 to 30 and a miss lowers it by 0 to 5. |
| `Simulation.PassiveCellIsCausal` | simulate.py:79-102 | Two runs whose passive outcomes for a signature agree up to a day agree on that signature's passive cell on that day. |
| `Simulation.PassiveFireThenMiss` | simulate.py:79-102 | With one signature over two days, a fire on day 1 and a miss on day 2 give passive rows 30 and 25. |
| `Simulation.SimulateCell` | simulate.py:85-102 | One pass of the inner loop body gives the synthetic value its draw decides and the clamped passive update of the previous value. |
| `Simulation.SimulateDay` | simulate.py:71-106 | One pass of the outer loop body builds exactly that day's synthetic and passive rows, and moves the draw cursor past that day's 2 · signatures draws. |
| `Simulation.Simulate` | simulate.py:56-110 | A run returns exactly the synthetic table and the passive table described above, and takes exactly 2 · days · signatures draws. Both `while` loops count from 1 up to their bound, so each table has one row per day (none when `amount_of_days < 1`) and each row one value per signature (none when `amount_of_signatures < 1`). |

## Left out

- `plot_data`, `export_data` and the `__main__` block (simulate.py:113 onwards) are left out. They are charting, CSV output, and a run with fixed parameters (3 signatures, 30 days) that calls the other three. None of them affects the simulated values. `GRAPH_STEPS` (simulate.py:53) is defined but never used.
- The pandas mechanics are not modelled: `DataFrame.append`, `astype(int)`, the `'Signature k'` column names and the CSV index column. A table is a sequence of `Row(day, values)`, and `values[s]` is the column of signature s + 1. Every value is already an integer, so `astype(int)` changes nothing.
- The `random` module is replaced by the injected `draws` sequence. The model does not capture that `random.random()` returns values in [0, 1) or what their distribution is. It does not state the 10 % rates as probabilities either. It takes every draw as given.
- The unused local `previous_day` (simulate.py:80) is not modelled.
- The per-day dicts are modelled as sequences grown one signature at a time. Each loop body is its own method: `SimulateDay` is the body of the outer loop over days (it holds the inner loop over signatures), and `SimulateCell` is the body of the inner loop. Control flow and draw order are unchanged.

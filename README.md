# Water quality evaluator

A verified model of the decision logic of the Smart Water Quality Monitoring
dashboard. Each refresh of the dashboard takes one sensor reading: a pH value,
a turbidity in NTU and a total of dissolved solids (TDS) in ppm. It then does
four things:

- it adds the reading to three rolling histories, one per metric, each holding
  at most the last 10 values;
- it classifies the reading as Safe, Moderate or Unsafe;
- it computes a Water Quality Index (WQI), an integer from 0 to 100;
- when the reading is Unsafe, it appends a timestamped record to an alert log
  that is never trimmed.

Layout:

- `quality.dfy`, module `Quality`: the classifier and the WQI as pure functions,
  with lemmas about them.
- `history.dfy`, module `History`: the "append, then keep the last 10" update
  (`Slide`) and a run of such updates (`Feed`).
- `monitor.dfy`, module `Monitor`: the alert step (`Logged`) and a run of alert
  steps (`LogAll`). It also holds the class `Session`. Its fields are the three
  histories and the alert log. Its `Cycle` method performs one refresh over the
  given reading, location and timestamp.

Two points about how the code's arithmetic is modelled:

- The index uses Python's `int()`, which truncates toward zero rather than
  flooring. `Quality.Trunc` models truncation, and `Quality.WqiIsClampedFloor`
  proves that the two agree once the result is clamped to [0, 100].
- TDS is a whole number in the code (`random.randint` or an integer slider), so
  the model takes it as an `int`. The index divides it by 50 with Python's true
  division, so that step is done over reals.

## Model

| member | source | states |
|---|---|---|
| `Quality.Classify` | app.py:79-85 | The result is Safe exactly when 6.5 <= pH <= 8.5, turbidity < 3 and TDS <= 600. It is Moderate exactly when the reading is not Safe but turbidity <= 5 and TDS <= 900. It is Unsafe exactly when turbidity > 5 or TDS > 900. So the three outcomes cover every reading. |
| `Quality.TurbidityThreeIsModerate` | app.py:80-83 | A reading with turbidity exactly 3 and a pH and TDS that qualify for Safe is Moderate, not Safe. |
| `Quality.SafePhBoundsInclusive` | app.py:80 | pH 6.5 and pH 8.5 are both inside the Safe band. |
| `Quality.ClassifyMonotone` | app.py:79-85 | With pH fixed, raising turbidity or TDS never gives a less severe tier. |
| `Quality.Trunc` | app.py:90 | `int()` on a real truncates toward zero: for x >= 0 the result is the largest integer not above x, for x < 0 the smallest integer not below x; it is 0 on (-1, 1). |
| `Quality.Wqi` | app.py:90-92 | For every input, the index is an integer in [0, 100]. |
| `Quality.WqiIsClampedFloor` | app.py:90-92 | Clamping the truncated raw score gives the same index as clamping its floor. |
| `Quality.WqiOfPureWater` | app.py:90-92 | pH 7, turbidity 0 and TDS 0 score 100. |
| `Quality.WqiAntitoneInPenalty` | app.py:90-92 | A reading with a larger penalty sum never has a higher index. |
| `Quality.WqiAntitoneInPhDeviation` | app.py:90-92 | With the other inputs fixed, the index never rises as the distance of pH from 7 grows. |
| `Quality.WqiAntitoneInTurbidity` | app.py:90-92 | With the other inputs fixed, the index never rises as turbidity grows. |
| `Quality.WqiAntitoneInTds` | app.py:90-92 | With the other inputs fixed, the index never rises as TDS grows. |
| `Quality.ContaminatedExample` | app.py:79-92 | The reading (4.0, 9.0, 1000) is Unsafe. Its penalty is 122, so its index saturates at 0. |
| `Quality.DemoDefaultExample` | app.py:79-92 | The demo sliders' default reading (7.2, 2.0, 350) is Safe with index 75. |
| `History.Last` | app.py:74-76 | For n > 0, `s[-n:]` keeps min(len(s), n) elements: the last ones of `s`, in order. |
| `History.Slide` | app.py:70-76 | After one update a history has length min(old length + 1, 10). Its last element is the new value, and the elements before it are the matching suffix of the old history. |
| `History.FeedKeepsMostRecent` | app.py:70-76 | After any sequence of updates, a history that started with at most 10 elements holds exactly the last 10 (or fewer) of all its values, in arrival order. |
| `History.FifteenReadings` | app.py:70-76 | Fifteen updates from an empty history leave readings 6 to 15, in order. |
| `Monitor.Logged` | app.py:149-156 | The log grows by exactly one record if and only if the status is Unsafe, and that record is the given one. Otherwise it is unchanged. Earlier records are kept as they were. |
| `Monitor.LogAllAppendsUnsafe` | app.py:149-156 | Over any run of cycles, the log is the earlier log followed by the records of the Unsafe cycles, in cycle order. |
| `Monitor.RepeatedUnsafeNotDeduplicated` | app.py:149-156 | Three cycles on the same Unsafe reading append three identical records. |
| `Monitor.NoAlertWithoutUnsafe` | app.py:149-156 | A run with no Unsafe cycle leaves the log unchanged. |
| `Monitor.Session.constructor` | app.py:15-19 | A session starts with three empty histories and an empty alert log. |
| `Monitor.Session.Cycle` | app.py:70-156 | One refresh: each history becomes `Slide` of its old value and the new component, so the three histories keep equal lengths of at most 10. The status is `Classify` of the reading and the index is `Wqi`, in [0, 100]. The log becomes `Logged` of the old log with the record (time, location, pH, turbidity, TDS). The lines between 92 and 149 that are not modelled are display code. |

## Left out

- Streamlit presentation is not modelled: page setup, sidebar widgets, HTML blocks, tabs, metrics, the progress bar, charts and the footer (app.py:8-53, 95-145, 158-173). It is rendering through a foreign library.
- The status colour and recommendation text (app.py:109-117) are not modelled. They are display text only.
- The reading's source is not modelled: demo sliders, random draws and `round(..., 2)` (app.py:56-67). `Session.Cycle` takes the reading as parameters. Nothing requires the slider domains (pH in [0, 14], turbidity in [0, 10], TDS in [0, 1200]), because the evaluator itself never checks them.
- The location choice (app.py:24-27) and the clock `datetime.now().strftime("%H:%M:%S")` (app.py:151) are inputs. `Cycle` takes them as the `location` and `now` strings.
- The pandas table and the CSV download of the alert log (app.py:159-167) are not modelled. They are serialisation through a foreign library.
- The `time.sleep` and `st.rerun` refresh loop (app.py:176-177) is scheduling. `Feed` and `LogAll` stand in for a run of cycles.
- Quality.Wqi: the arithmetic is over exact reals. The model does not reproduce IEEE binary floating-point rounding of the penalty sum.

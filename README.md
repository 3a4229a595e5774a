# Consumo-Cafe: the consumption projector, in Dafny

The coffee dashboard shows how much coffee Honduras drinks each year and
projects that figure up to 2030. The projection is done by `modelo_consumo`
in `app.py`. It takes a table of (year, consumption) rows, a horizon
`anios_pred` (default 6) and a degree `grado` (default 2). It fits a
polynomial of that degree to the rows with numpy's `polyfit`, then returns a
new table with three parts:

- the input rows, unchanged and tagged `"Histórico"`;
- one row for each of the `anios_pred` years that follow the last row's
  year (`np.arange`);
- on each of those new rows, the fitted polynomial's value at that year
  (`np.poly1d`, highest-order coefficient first), tagged `"Predicción"`.

This project models that function and the fixed data set `consumo_oficial`
it is called with.

- `poly1d.dfy` (module `Poly1d`): polynomial evaluation by Horner's rule,
  proved equal to the sum of coefficient-times-power definition.
- `app.dfy` (module `App`): the rows, the tags, `np.arange` over integers,
  the assembly of the output table, the two argument errors numpy's
  `polyfit` raises, and the lemmas about the result.

The least-squares fit is a floating-point library routine, so it is not
modelled. `ModeloConsumo` takes it as a parameter `polyfit`: any function
from (years, consumptions, degree) to a coefficient list. Every property
below holds whatever coefficients that function returns.

Two behaviours of the code are worth stating on their own:

- The projected years are anchored on the year of the last row
  (`años[-1]`), not on the largest year. `AncladoEnUltimaFila` shows this on
  an input whose rows are out of order.
- The code raises nothing for a non-positive horizon, for years out of
  order or for too few points, and it does not round the projected values.
  A non-positive horizon just yields no projected rows
  (`HorizonteNoPositivo`). Too few points only make numpy warn. Of
  `polyfit`'s argument checks, two raise: a negative degree (checked
  first), then an empty table. They are modelled as `Err` results. A
  failure inside the numerical solve itself is not modelled (see
  "## Left out").

## Model

| member | source | states |
|---|---|---|
| `Poly1d.HornerIsPowerSum` | app.py:86-89 | Evaluating the curve with the highest-order coefficient first gives the sum of coef[i]·x^(n-1-i) for every coefficient list and every x. |
| `Poly1d.HornerDegreeTwo` | app.py:81-89 | With the default degree 2, the curve at x is a·x² + b·x + c for coefficients [a, b, c]. |
| `App.Arange` | app.py:88 | `np.arange(start, stop)` yields the consecutive integers start, start+1, … below stop, and none when stop ≤ start. |
| `App.Proyectar` | app.py:88-100 | Given the coefficients, the output has \|df\| + max(0, anios_pred) rows. The first \|df\| rows are the input rows with the historical tag. Row \|df\|+k has year last+1+k, the curve's value at that year and the prediction tag. |
| `App.ModeloConsumo` | app.py:81-100 | A negative degree fails with `GradoNegativo`. Otherwise an empty table fails with `SerieVacia`. Otherwise the call succeeds with \|df\| + max(0, anios_pred) rows. |
| `App.PasoHistorico` | app.py:97-100 | The first \|df\| output rows are the input rows in order, with year and consumption untouched and tagged historical. Dropping the tag column from them gives back the input table, so historical values are never recomputed from the curve. |
| `App.TiposCorrectos` | app.py:91-98 | A row's tag reads "Histórico" exactly when it is one of the first \|df\| rows, and "Predicción" exactly when it is not. |
| `App.AniosYValoresProyectados` | app.py:85-89 | The years after the historical rows are exactly `arange(años[-1]+1, años[-1]+anios_pred+1)`. Each of those rows holds the fitted polynomial's value at its year. |
| `App.OrdenCreciente` | app.py:88-100 | If the input years strictly increase, so do the output years, and every projected year is beyond the last historical year. |
| `App.AncladoEnUltimaFila` | app.py:88 | The projection starts after the last row's year, not after the largest year: rows 2020, 2018 with horizon 2 give years 2020, 2018, 2019, 2020. |
| `App.HorizonteNoPositivo` | app.py:88-100 | When anios_pred ≤ 0 no row is added. The output is the tagged input alone. |
| `App.HorizonteExtiende` | app.py:88-100 | For 0 ≤ n ≤ m, the table for horizon n is a prefix of the table for horizon m, so a longer horizon only appends rows. |
| `App.EscenarioOficialGradoDos` | app.py:81-102 | When the degree-2 fit returns three coefficients [a, b, c], as numpy's fit does, each projected row of the default call on `consumo_oficial` holds a·y² + b·y + c at its year y. |
| `App.EscenarioOficial` | app.py:72-102 | `modelo_consumo(consumo_oficial)` with the default arguments succeeds with 12 rows. Their years are 2014..2024 in steps of 2, then 2025..2030. The first six rows are the official figures tagged historical. The last six are tagged as predictions and hold the curve's values. |

## Left out

- `np.polyfit` (app.py:85): the least-squares solve is floating-point numerics inside numpy. It is a parameter of `ModeloConsumo`, and nothing is stated about how good the fit is. The parameter may return any number of coefficients; that numpy returns degree + 1 of them is a hypothesis of `EscenarioOficialGradoDos`, not a property of the `Polyfit` type. Its warning when the fit is rank-deficient (for example fewer distinct years than degree + 1) is output only, so it is not modelled.
- `App.ModeloConsumo`: numpy's numerical failure inside the solve is not modelled. Before solving, `polyfit` divides each column of its power matrix by the column's norm. That gives NaN when every year is 0 and `grado >= 1`, or when x^grado overflows float64 (for example `grado >= 94` on years near 2000). The least-squares solver then typically raises `LinAlgError`. The model's fit is a total function, so `ModeloConsumo` returns `Ok` on those inputs.
- Floating point: consumptions and coefficients are `real`, and the curve is evaluated exactly. pandas promotes the combined "Consumo" column to float64, and numpy evaluates the curve in float64. Rounding error and integer-to-float conversion are not modelled. Years are unbounded integers, so int64 overflow is not modelled.
- `np.poly1d` drops leading zero coefficients before evaluating. This does not change the value, so it is not modelled.
- DataFrame details: the model's rows have exactly the columns "Año", "Consumo" and "Tipo". Extra input columns and the index that `ignore_index` rebuilds are not modelled. The input is a value, so no call can change it, which is what copying the table before tagging it ensures in the source (app.py:97-98).
- `load_data` (app.py:51-66): file I/O behind a bare `except`, random placeholder data, and a cache decorator.
- The KPI cards (app.py:115-120): pandas `mode` and `mean` over the loaded or random survey data.
- Page configuration, markdown, and every Plotly chart and Streamlit call (app.py:17-22, 107-192): presentation only.
- frontend/script.js and frontend/frontend/script.js: DOM styling and timed animation, with no logic to state.
- Rounding of projected values and a growth-rate helper: this version of the code has neither.

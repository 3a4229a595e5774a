/**
  The consumption projector of the coffee dashboard (`modelo_consumo` in
  app.py): a table of (year, consumption) rows is extended by a number of
  future years, each valued by a polynomial fitted to the history, and every
  row is tagged as historical or predicted.

  The least-squares fit (`np.polyfit`) is a floating-point library routine
  and is not modelled: it enters as the parameter `polyfit`, an arbitrary
  function from (years, consumptions, degree) to a coefficient list, highest
  order first. Everything around it is modelled over exact reals and
  unbounded integers.
*/
module App {
  import opened Poly1d

  /** One row of the input table: the columns "Año" and "Consumo". */
  datatype Observacion = Observacion(anio: int, consumo: real)

  /** The value of the "Tipo" column. */
  datatype Tipo = Historico | Prediccion

  /** One row of the output table: "Año", "Consumo", "Tipo". */
  datatype Fila = Fila(anio: int, consumo: real, tipo: Tipo)

  /** The two argument checks of numpy's polyfit that raise: a negative
      degree is rejected first, an empty vector of years next; with either,
      no table is returned. Failures inside the numerical solve are not
      modelled. */
  datatype Error = GradoNegativo | SerieVacia

  datatype Result<T> = Ok(value: T) | Err(error: Error)

  /** The least-squares fit, as a parameter: years, consumptions and degree
      in, coefficients (highest order first) out. */
  type Polyfit = (seq<int>, seq<real>, nat) -> seq<real>

  /** The text the "Tipo" column holds for each tag. */
  function Etiqueta(t: Tipo): string
  {
    match t
    case Historico => "Histórico"
    case Prediccion => "Predicción"
  }

  /** The "Año" column as an array. */
  function Anios(df: seq<Observacion>): seq<int>
  {
    seq(|df|, i requires 0 <= i < |df| => df[i].anio)
  }

  /** The "Consumo" column as an array. */
  function Consumos(df: seq<Observacion>): seq<real>
  {
    seq(|df|, i requires 0 <= i < |df| => df[i].consumo)
  }

  /** The "Año" column of an output table. */
  function AniosDe(rows: seq<Fila>): seq<int>
  {
    seq(|rows|, i requires 0 <= i < |rows| => rows[i].anio)
  }

  /** The number of elements of `np.arange(a + 1, a + n + 1)`: none when
      `n` is not positive. */
  function Horizonte(n: int): nat
  {
    if n > 0 then n else 0
  }

  /** `np.arange(start, stop)` over integers: the consecutive integers from
      `start` up to but excluding `stop`, and nothing when `stop <= start`. */
  function Arange(start: int, stop: int): (r: seq<int>)
    ensures |r| == Horizonte(stop - start)
    ensures forall k :: 0 <= k < |r| ==> r[k] == start + k
    decreases stop - start
  {
    if stop <= start then [] else [start] + Arange(start + 1, stop)
  }

  /** The year of the last row (`años[-1]`), not the largest year. */
  function UltimoAnio(df: seq<Observacion>): int
    requires |df| > 0
  {
    df[|df| - 1].anio
  }

  /** The predicted rows: each future year with the curve's value there. */
  function DfPred(aniosFuturos: seq<int>, coef: seq<real>): seq<Fila>
  {
    seq(|aniosFuturos|, k requires 0 <= k < |aniosFuturos| =>
      Fila(aniosFuturos[k], Horner(coef, aniosFuturos[k] as real), Prediccion))
  }

  /** A copy of the input with the tag column set on every row. */
  function DfHist(df: seq<Observacion>): seq<Fila>
  {
    seq(|df|, i requires 0 <= i < |df| => Fila(df[i].anio, df[i].consumo, Historico))
  }

  /** The table `modelo_consumo` returns once the coefficients are known:
      the historical rows unchanged, then one predicted row per future year,
      the years following the last row's year one by one. */
  function Proyectar(df: seq<Observacion>, aniosPred: int, coef: seq<real>): (r: seq<Fila>)
    requires |df| > 0
    ensures |r| == |df| + Horizonte(aniosPred)
    ensures forall i :: 0 <= i < |df| ==> r[i] == Fila(df[i].anio, df[i].consumo, Historico)
    ensures forall j :: |df| <= j < |r| ==>
      r[j] == Fila(UltimoAnio(df) + 1 + (j - |df|),
                   Horner(coef, (UltimoAnio(df) + 1 + (j - |df|)) as real),
                   Prediccion)
  {
    var ultimo := UltimoAnio(df);
    var aniosFuturos := Arange(ultimo + 1, ultimo + aniosPred + 1);
    DfHist(df) + DfPred(aniosFuturos, coef)
  }

  /** `modelo_consumo(df_oficial, anios_pred, grado)` with the fit supplied
      as `polyfit`. */
  function ModeloConsumo(df: seq<Observacion>, aniosPred: int, grado: int, polyfit: Polyfit)
    : (r: Result<seq<Fila>>)
    ensures grado < 0 ==> r == Err(GradoNegativo)
    ensures grado >= 0 && |df| == 0 ==> r == Err(SerieVacia)
    ensures r.Ok? <==> grado >= 0 && |df| > 0
    ensures r.Ok? ==> |r.value| == |df| + Horizonte(aniosPred)
  {
    if grado < 0 then Err(GradoNegativo)
    else if |df| == 0 then Err(SerieVacia)
    else
      var coef := polyfit(Anios(df), Consumos(df), grado);
      Ok(Proyectar(df, aniosPred, coef))
  }

  /** The input rows a table's rows came from: the tag column dropped. */
  function SinTipo(rows: seq<Fila>): seq<Observacion>
  {
    seq(|rows|, i requires 0 <= i < |rows| => Observacion(rows[i].anio, rows[i].consumo))
  }

  /** Years strictly increasing from row to row. */
  predicate Creciente(s: seq<int>)
  {
    forall i, j :: 0 <= i < j < |s| ==> s[i] < s[j]
  }

  /** The data set `consumo_oficial`. */
  function ConsumoOficial(): seq<Observacion>
  {
    [ Observacion(2014, 20000.0), Observacion(2016, 80000.0), Observacion(2018, 150000.0),
      Observacion(2020, 250000.0), Observacion(2022, 320000.0), Observacion(2024, 390000.0) ]
  }

  /** Historical rows pass through: the first |df| rows are the input rows in
      order, with year and consumption untouched and the historical tag, and
      dropping the tag column from them gives back the input table. */
  lemma PasoHistorico(df: seq<Observacion>, aniosPred: int, grado: int, polyfit: Polyfit)
    requires ModeloConsumo(df, aniosPred, grado, polyfit).Ok?
    ensures var rows := ModeloConsumo(df, aniosPred, grado, polyfit).value;
      && |df| <= |rows|
      && (forall i :: 0 <= i < |df| ==> rows[i] == Fila(df[i].anio, df[i].consumo, Historico))
      && SinTipo(rows[..|df|]) == df
  {
  }

  /** The tag of a row is "Histórico" exactly for the first |df| rows and
      "Predicción" exactly for the rest. */
  lemma TiposCorrectos(df: seq<Observacion>, aniosPred: int, grado: int, polyfit: Polyfit, i: int)
    requires ModeloConsumo(df, aniosPred, grado, polyfit).Ok?
    requires 0 <= i < |ModeloConsumo(df, aniosPred, grado, polyfit).value|
    ensures var rows := ModeloConsumo(df, aniosPred, grado, polyfit).value;
      && (Etiqueta(rows[i].tipo) == "Histórico" <==> i < |df|)
      && (Etiqueta(rows[i].tipo) == "Predicción" <==> |df| <= i)
  {
  }

  /** The years after the historical rows are exactly
      `años[-1] + 1, ..., años[-1] + anios_pred`, whatever the spacing of the
      input years, and each carries the fitted polynomial's value at that year. */
  lemma AniosYValoresProyectados(df: seq<Observacion>, aniosPred: int, grado: int, polyfit: Polyfit)
    requires ModeloConsumo(df, aniosPred, grado, polyfit).Ok?
    ensures var rows := ModeloConsumo(df, aniosPred, grado, polyfit).value;
      var ultimo := UltimoAnio(df);
      var coef := polyfit(Anios(df), Consumos(df), grado);
      && AniosDe(rows)[|df|..] == Arange(ultimo + 1, ultimo + aniosPred + 1)
      && (forall j :: |df| <= j < |rows| ==> rows[j].consumo == Horner(coef, rows[j].anio as real))
  {
  }

  /** When the input years strictly increase, so do the output years, and
      every projected year lies beyond the last historical one. */
  lemma OrdenCreciente(df: seq<Observacion>, aniosPred: int, grado: int, polyfit: Polyfit)
    requires ModeloConsumo(df, aniosPred, grado, polyfit).Ok?
    requires Creciente(Anios(df))
    ensures var rows := ModeloConsumo(df, aniosPred, grado, polyfit).value;
      && Creciente(AniosDe(rows))
      && (forall j :: |df| <= j < |rows| ==> rows[j].anio > UltimoAnio(df))
  {
    var rows := ModeloConsumo(df, aniosPred, grado, polyfit).value;
    var ys := AniosDe(rows);
    var n := |df|;
    forall i, j | 0 <= i < j < |ys| ensures ys[i] < ys[j] {
      if j < n {
        assert ys[i] == Anios(df)[i] && ys[j] == Anios(df)[j];
      } else if i < n {
        assert ys[i] == Anios(df)[i];
        assert i == n - 1 || Anios(df)[i] < Anios(df)[n - 1];
      }
    }
  }

  /** The projection is anchored on the last row, not on the largest year:
      for rows in the order 2020, 2018 the first projected year is 2019. */
  lemma AncladoEnUltimaFila(polyfit: Polyfit)
    ensures var r := ModeloConsumo([Observacion(2020, 1.0), Observacion(2018, 2.0)], 2, 2, polyfit);
      r.Ok? && AniosDe(r.value) == [2020, 2018, 2019, 2020]
  {
  }

  /** A horizon that is not positive adds no rows: the output is the
      tagged input alone. */
  lemma HorizonteNoPositivo(df: seq<Observacion>, aniosPred: int, grado: int, polyfit: Polyfit)
    requires ModeloConsumo(df, aniosPred, grado, polyfit).Ok?
    requires aniosPred <= 0
    ensures ModeloConsumo(df, aniosPred, grado, polyfit).value == DfHist(df)
  {
  }

  /** A longer horizon only appends rows: the table for `n` future years is
      a prefix of the table for `m >= n` future years. */
  lemma HorizonteExtiende(df: seq<Observacion>, n: int, m: int, grado: int, polyfit: Polyfit)
    requires ModeloConsumo(df, n, grado, polyfit).Ok?
    requires 0 <= n <= m
    ensures ModeloConsumo(df, n, grado, polyfit).value
         == ModeloConsumo(df, m, grado, polyfit).value[..|df| + n]
  {
  }

  /** The call `modelo_consumo(consumo_oficial)` with its default horizon 6
      and degree 2: 12 rows, the six official years 2014..2024 (step 2) with
      their consumptions and the historical tag, then 2025..2030 tagged as
      predictions and valued by the fitted curve. */
  lemma EscenarioOficial(polyfit: Polyfit)
    ensures var r := ModeloConsumo(ConsumoOficial(), 6, 2, polyfit);
      var coef := polyfit(Anios(ConsumoOficial()), Consumos(ConsumoOficial()), 2);
      && r.Ok?
      && |r.value| == 12
      && AniosDe(r.value)
         == [2014, 2016, 2018, 2020, 2022, 2024, 2025, 2026, 2027, 2028, 2029, 2030]
      && SinTipo(r.value[..6]) == ConsumoOficial()
      && (forall i :: 0 <= i < 6 ==> r.value[i].tipo == Historico)
      && (forall j :: 6 <= j < 12 ==>
            r.value[j].tipo == Prediccion && r.value[j].consumo == Horner(coef, r.value[j].anio as real))
  {
  }

  /** With the default degree 2 numpy's fit returns three coefficients
      [a, b, c]; each projected row of `modelo_consumo(consumo_oficial)` then
      holds a*y^2 + b*y + c at its year y. */
  lemma EscenarioOficialGradoDos(polyfit: Polyfit)
    requires |polyfit(Anios(ConsumoOficial()), Consumos(ConsumoOficial()), 2)| == 3
    ensures var r := ModeloConsumo(ConsumoOficial(), 6, 2, polyfit);
      var c := polyfit(Anios(ConsumoOficial()), Consumos(ConsumoOficial()), 2);
      && r.Ok?
      && (forall j :: 6 <= j < |r.value| ==>
            var y := r.value[j].anio as real;
            r.value[j].consumo == c[0] * y * y + c[1] * y + c[2])
  {
    var rows := ModeloConsumo(ConsumoOficial(), 6, 2, polyfit).value;
    var c := polyfit(Anios(ConsumoOficial()), Consumos(ConsumoOficial()), 2);
    assert c == [c[0], c[1], c[2]];
    forall j | 6 <= j < |rows|
      ensures rows[j].consumo == c[0] * (rows[j].anio as real) * (rows[j].anio as real)
                                 + c[1] * (rows[j].anio as real) + c[2]
    {
      HornerDegreeTwo(c[0], c[1], c[2], rows[j].anio as real);
    }
  }
}

/**
 * The arithmetic of `ComisionService`: net sales, return ratio, base
 * commission, the bonus and penalty tiers and the final amount; the note
 * text derived from the two tier flags; and the period check.
 * Money is exact (`real`): PHP's float rounding is not modelled.
 */
module Calculo {
  import opened Common
  import opened Text

  /** The active rule set (a `parametros_comision` row): percentages and thresholds. */
  datatype Parametros = Parametros(
    id: int,
    porcentajeBase: real,
    porcentajeBono: real,
    limiteBono: real,
    porcentajePenalizacion: real,
    limiteDevoluciones: real)

  /** The amounts `calcularComisionVendedor` derives for one salesperson and period. */
  datatype Montos = Montos(
    ventasNetas: real,
    porcentajeDevoluciones: real,
    comisionBase: real,
    bonoAdicional: real,
    penalizacion: real,
    aplicaBono: bool,
    aplicaPenalizacion: bool,
    comisionFinal: real)

  /** Returns as a percentage of sales; 0 when there are no sales to divide by. */
  function PorcentajeDevoluciones(totalVentas: real, totalDevoluciones: real): (r: real)
    ensures totalVentas <= 0.0 ==> r == 0.0
    ensures totalVentas > 0.0 && totalDevoluciones >= 0.0 ==> r >= 0.0
  {
    if totalVentas > 0.0 then totalDevoluciones / totalVentas * 100.0 else 0.0
  }

  /** With sales to divide by, the ratio times the sales is a hundred times the returns. */
  lemma PorcentajeEsProporcion(totalVentas: real, totalDevoluciones: real)
    requires totalVentas > 0.0
    ensures PorcentajeDevoluciones(totalVentas, totalDevoluciones) * totalVentas == totalDevoluciones * 100.0
  {
    var q := totalDevoluciones / totalVentas;
    assert q * totalVentas == totalDevoluciones;
  }

  /** The rate the final commission pays on net sales, in percent. */
  function TasaEfectiva(p: Parametros, aplicaBono: bool, aplicaPenalizacion: bool): real {
    p.porcentajeBase
    + (if aplicaBono then p.porcentajeBono else 0.0)
    - (if aplicaPenalizacion then p.porcentajePenalizacion else 0.0)
  }

  /**
   * The per-salesperson formula. The bonus tier opens only strictly above
   * `limiteBono` and the penalty tier only strictly above
   * `limiteDevoluciones`; a tier that does not open contributes 0 and leaves
   * its flag false. The final amount is not floored at zero.
   */
  function CalcularMontos(totalVentas: real, totalDevoluciones: real, p: Parametros): (m: Montos)
    ensures m.ventasNetas == totalVentas - totalDevoluciones
    ensures m.porcentajeDevoluciones == PorcentajeDevoluciones(totalVentas, totalDevoluciones)
    ensures m.aplicaBono <==> m.ventasNetas > p.limiteBono
    ensures m.aplicaPenalizacion <==> m.porcentajeDevoluciones > p.limiteDevoluciones
    ensures m.comisionBase == m.ventasNetas * (p.porcentajeBase / 100.0)
    ensures m.bonoAdicional == if m.aplicaBono then m.ventasNetas * (p.porcentajeBono / 100.0) else 0.0
    ensures m.penalizacion == if m.aplicaPenalizacion then m.ventasNetas * (p.porcentajePenalizacion / 100.0) else 0.0
    ensures m.comisionFinal == m.comisionBase + m.bonoAdicional - m.penalizacion
  {
    var ventasNetas := totalVentas - totalDevoluciones;
    var porcentaje := PorcentajeDevoluciones(totalVentas, totalDevoluciones);
    var base := ventasNetas * (p.porcentajeBase / 100.0);
    var aplicaBono := ventasNetas > p.limiteBono;
    var bono := if aplicaBono then ventasNetas * (p.porcentajeBono / 100.0) else 0.0;
    var aplicaPenalizacion := porcentaje > p.limiteDevoluciones;
    var penalizacion :=
      if aplicaPenalizacion then ventasNetas * (p.porcentajePenalizacion / 100.0) else 0.0;
    Montos(ventasNetas, porcentaje, base, bono, penalizacion, aplicaBono, aplicaPenalizacion,
           base + bono - penalizacion)
  }

  /** The final amount is net sales times the effective rate: base, plus bonus, minus penalty, in percent. */
  lemma ComisionEsTasaSobreNetas(totalVentas: real, totalDevoluciones: real, p: Parametros)
    ensures var m := CalcularMontos(totalVentas, totalDevoluciones, p);
      m.comisionFinal * 100.0 == m.ventasNetas * TasaEfectiva(p, m.aplicaBono, m.aplicaPenalizacion)
  {
    var m := CalcularMontos(totalVentas, totalDevoluciones, p);
    var n := m.ventasNetas;
    assert m.comisionBase * 100.0 == n * p.porcentajeBase;
    assert m.bonoAdicional * 100.0 == n * (if m.aplicaBono then p.porcentajeBono else 0.0);
    assert m.penalizacion * 100.0 == n * (if m.aplicaPenalizacion then p.porcentajePenalizacion else 0.0);
  }

  /** Net sales exactly at the bonus threshold earn no bonus. */
  lemma NoBonusAtThreshold(totalVentas: real, totalDevoluciones: real, p: Parametros)
    requires totalVentas - totalDevoluciones == p.limiteBono
    ensures !CalcularMontos(totalVentas, totalDevoluciones, p).aplicaBono
    ensures CalcularMontos(totalVentas, totalDevoluciones, p).bonoAdicional == 0.0
  {
  }

  /** With non-negative rates and net sales, a salesperson without a penalty never owes money. */
  lemma FinalNonNegativeWithoutPenalty(totalVentas: real, totalDevoluciones: real, p: Parametros)
    requires totalVentas >= totalDevoluciones
    requires p.porcentajeBase >= 0.0 && p.porcentajeBono >= 0.0
    requires !CalcularMontos(totalVentas, totalDevoluciones, p).aplicaPenalizacion
    ensures CalcularMontos(totalVentas, totalDevoluciones, p).comisionFinal >= 0.0
  {
    var m := CalcularMontos(totalVentas, totalDevoluciones, p);
    ComisionEsTasaSobreNetas(totalVentas, totalDevoluciones, p);
    assert TasaEfectiva(p, m.aplicaBono, m.aplicaPenalizacion) >= 0.0;
    assert m.ventasNetas >= 0.0;
  }

  /** The rule set used in the examples below: 5 % base, 10 % bonus above 1,000,000, 8 % penalty above 10 % returns. */
  function ReglasEjemplo(): Parametros {
    Parametros(1, 5.0, 10.0, 1000000.0, 8.0, 10.0)
  }

  /** Sales 1,500,000 and returns 100,000: base 70,000, bonus 140,000, no penalty, final 210,000. */
  lemma EjemploConBono()
    ensures var m := CalcularMontos(1500000.0, 100000.0, ReglasEjemplo());
      && m.ventasNetas == 1400000.0
      && m.comisionBase == 70000.0
      && m.aplicaBono && m.bonoAdicional == 140000.0
      && !m.aplicaPenalizacion && m.penalizacion == 0.0
      && m.comisionFinal == 210000.0
  {
    var m := CalcularMontos(1500000.0, 100000.0, ReglasEjemplo());
    PorcentajeEsProporcion(1500000.0, 100000.0);
    assert m.porcentajeDevoluciones * 1500000.0 == 10000000.0;
    assert m.porcentajeDevoluciones < 10.0;
  }

  /** No floor at zero: sales 100, returns 50, same rules: the 8 % penalty beats the 5 % base, final −1.5. */
  lemma EjemploComisionNegativa()
    ensures var m := CalcularMontos(100.0, 50.0, ReglasEjemplo());
      m.aplicaPenalizacion && !m.aplicaBono && m.comisionFinal == -1.5
  {
    var m := CalcularMontos(100.0, 50.0, ReglasEjemplo());
    assert m.porcentajeDevoluciones == 50.0;
  }

  // --------------------------------------------------------- observaciones

  const TEXTO_BONO: string := "Bono aplicado por superar límite de ventas"
  const TEXTO_PENALIZACION: string := "Penalización aplicada " + "por exceder límite de devoluciones"
  const TEXTO_ESTANDAR: string := "Comisión estándar aplicada"

  /**
   * `generarObservaciones`: the bonus text if the bonus applies, the
   * penalty text if the penalty applies, joined by ". "; the standard text
   * exactly when neither applies.
   */
  function GenerarObservaciones(aplicaBono: bool, aplicaPenalizacion: bool): (r: string)
    ensures r == TEXTO_ESTANDAR <==> !aplicaBono && !aplicaPenalizacion
    ensures aplicaBono && aplicaPenalizacion ==> r == TEXTO_BONO + ". " + TEXTO_PENALIZACION
    ensures aplicaBono && !aplicaPenalizacion ==> r == TEXTO_BONO
    ensures !aplicaBono && aplicaPenalizacion ==> r == TEXTO_PENALIZACION
  {
    var partes :=
      (if aplicaBono then [TEXTO_BONO] else [])
      + (if aplicaPenalizacion then [TEXTO_PENALIZACION] else [])
      + (if !aplicaBono && !aplicaPenalizacion then [TEXTO_ESTANDAR] else []);
    assert aplicaBono && aplicaPenalizacion ==> partes == [TEXTO_BONO, TEXTO_PENALIZACION];
    Join(partes, ". ")
  }

  /** Reads the two flags back from a note; `None` for text `GenerarObservaciones` never writes. */
  function LeerObservaciones(texto: string): Option<(bool, bool)> {
    if texto == TEXTO_BONO + ". " + TEXTO_PENALIZACION then Some((true, true))
    else if texto == TEXTO_BONO then Some((true, false))
    else if texto == TEXTO_PENALIZACION then Some((false, true))
    else if texto == TEXTO_ESTANDAR then Some((false, false))
    else None
  }

  /** The note determines the flags: distinct flag pairs never share a note. */
  lemma ObservacionesRoundTrip(aplicaBono: bool, aplicaPenalizacion: bool)
    ensures LeerObservaciones(GenerarObservaciones(aplicaBono, aplicaPenalizacion))
            == Some((aplicaBono, aplicaPenalizacion))
  {
    assert TEXTO_BONO != TEXTO_BONO + ". " + TEXTO_PENALIZACION by {
      assert |TEXTO_BONO| < |TEXTO_BONO + ". " + TEXTO_PENALIZACION|;
    }
    assert TEXTO_PENALIZACION != TEXTO_BONO + ". " + TEXTO_PENALIZACION by {
      assert |TEXTO_PENALIZACION| < |TEXTO_BONO + ". " + TEXTO_PENALIZACION|;
    }
    assert TEXTO_PENALIZACION != TEXTO_BONO by {
      assert TEXTO_PENALIZACION[0] != TEXTO_BONO[0];
    }
    assert TEXTO_ESTANDAR != TEXTO_BONO by {
      assert TEXTO_ESTANDAR[0] != TEXTO_BONO[0];
    }
    assert TEXTO_ESTANDAR != TEXTO_PENALIZACION by {
      assert TEXTO_ESTANDAR[0] != TEXTO_PENALIZACION[0];
    }
    assert TEXTO_ESTANDAR != TEXTO_BONO + ". " + TEXTO_PENALIZACION by {
      assert TEXTO_ESTANDAR[0] != (TEXTO_BONO + ". " + TEXTO_PENALIZACION)[0];
    }
  }

  // ---------------------------------------------------------------- período

  const ERROR_FORMATO_PERIODO: string := "Formato de período inválido. Use YYYY-MM"
  const ERROR_PERIODO_FUTURO: string := "No se pueden calcular comisiones para períodos futuros"

  /**
   * `preg_match('/^\d{4}-\d{2}$/', ...)`: four ASCII digits, a dash, two
   * ASCII digits. PCRE's `$` also matches before one final line feed.
   */
  predicate FormatoPeriodo(s: string) {
    && (|s| == 7 || (|s| == 8 && s[7] == '\n'))
    && IsDigit(s[0]) && IsDigit(s[1]) && IsDigit(s[2]) && IsDigit(s[3])
    && s[4] == '-'
    && IsDigit(s[5]) && IsDigit(s[6])
  }

  /**
   * `validarPeriodo`: the format check, then `$periodo > date('Y-m')`, which
   * PHP evaluates as a byte-wise string comparison (neither side is numeric).
   * `mesActual` is `date('Y-m')`.
   */
  function ValidarPeriodo(periodo: string, mesActual: string): (r: Result<bool>)
    ensures r.Ok? <==> FormatoPeriodo(periodo) && LexLe(periodo, mesActual)
    ensures r.Ok? ==> r.value
    ensures !FormatoPeriodo(periodo) ==> r == Err(ERROR_FORMATO_PERIODO)
    ensures FormatoPeriodo(periodo) && !LexLe(periodo, mesActual) ==> r == Err(ERROR_PERIODO_FUTURO)
  {
    if !FormatoPeriodo(periodo) then Err(ERROR_FORMATO_PERIODO)
    else if !LexLe(periodo, mesActual) then Err(ERROR_PERIODO_FUTURO)
    else Ok(true)
  }

  /** Every accepted period is a `YYYY-MM` string, possibly followed by one line feed. */
  lemma PeriodoAceptadoTieneFormato(periodo: string, mesActual: string)
    requires ValidarPeriodo(periodo, mesActual).Ok?
    ensures periodo[..7] == periodo || periodo == periodo[..7] + "\n"
    ensures periodo[4] == '-' && |periodo[..7]| == 7
  {
  }

  /** The month is not range-checked: "2024-00" and "2024-13" pass for a later current month. */
  lemma MesNoVerificado()
    ensures ValidarPeriodo("2024-00", "2025-01").Ok?
    ensures ValidarPeriodo("2024-13", "2025-01").Ok?
  {
  }

  /** The current month itself is accepted; with a trailing line feed it compares as later and is refused. */
  lemma MesActualYSaltoDeLinea()
    ensures ValidarPeriodo("2024-05", "2024-05").Ok?
    ensures ValidarPeriodo("2024-05\n", "2024-05") == Err(ERROR_PERIODO_FUTURO)
  {
    assert !LexLe("2024-05\n", "2024-05") by {
      assert "2024-05\n"[1..] == "024-05\n";
    }
  }

  // ------------------------------------------------ without a rule set

  /**
   * What `calcularComisionVendedor` computes when `getParametrosActivos`
   * returned `false`, as `recalcularComisiones` lets happen for a single
   * salesperson: every `$parametros[...]` reads as null, `null / 100` is 0,
   * and `$x > null` compares both sides as booleans, so it holds iff `$x != 0`.
   */
  function MontosSinParametros(totalVentas: real, totalDevoluciones: real): (m: Montos)
    ensures m.comisionBase == 0.0 && m.bonoAdicional == 0.0 && m.penalizacion == 0.0
    ensures m.comisionFinal == 0.0
    ensures m.aplicaBono <==> totalVentas != totalDevoluciones
  {
    var ventasNetas := totalVentas - totalDevoluciones;
    var porcentaje := PorcentajeDevoluciones(totalVentas, totalDevoluciones);
    Montos(ventasNetas, porcentaje, 0.0, 0.0, 0.0, ventasNetas != 0.0, porcentaje != 0.0, 0.0)
  }

  /** Without a rule set, sales of 100 and no returns are computed as "bonus applied" with a zero bonus. */
  lemma SinParametrosBonoVacio()
    ensures var m := MontosSinParametros(100.0, 0.0);
      m.aplicaBono && m.bonoAdicional == 0.0 && m.comisionFinal == 0.0
      && GenerarObservaciones(m.aplicaBono, m.aplicaPenalizacion) == TEXTO_BONO
  {
  }
}

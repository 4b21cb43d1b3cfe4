/**
 * `ComisionService`: the per-salesperson calculation with its upsert into
 * `comisiones`, the period batch inside one transaction, the dashboard
 * metrics, the approve and pay loops, and the recalculation entry point.
 *
 * Two collaborators are not part of this model and enter as inputs:
 * `Venta::getResumenPorVendedorPeriodo` (the sales summary of a
 * salesperson and period, a `ConsultaResumen`) and
 * `ParametroComision::getParametrosActivos` (the rule set of the period, or
 * none). The clock (`date`, `CURRENT_TIMESTAMP`) is the `ahora` and
 * `mesActual` parameters.
 */
module ComisionServicio {
  import opened Common
  import opened Text
  import opened Tables
  import opened Records
  import opened Calculo
  import CM = ComisionModel
  import VM = VendedorModel

  /**
   * What the sales summary query gives back: no row, a row (SQL NULL totals
   * read as 0, as PHP's arithmetic and `== 0` treat them), or an exception.
   */
  datatype ConsultaResumen = SinFila | Fila(totalVentas: real, totalDevoluciones: real) | Falla(mensaje: string)

  /** The summary leads to a commission: a row with non-zero sales. */
  predicate ConVentas(c: ConsultaResumen) {
    c.Fila? && c.totalVentas != 0.0
  }

  /** The `$datosComision` array `calcularComisionVendedor` returns (with `comision_final` inside `montos`). */
  datatype Calculada = Calculada(
    vendedorId: int,
    parametroId: int,
    periodo: string,
    totalVentas: real,
    totalDevoluciones: real,
    montos: Montos,
    observaciones: string)

  const ERROR_SIN_PARAMETROS: string := "No hay parámetros de comisión configurados para el período"

  /** The row holds exactly what a calculation of these totals under `m` produced. */
  predicate Refleja(c: ComisionRow, vendedorId: int, periodo: string, tv: real, td: real, m: Montos, obs: string) {
    && c.vendedorId == vendedorId && c.periodo == periodo
    && c.totalVentas == tv && c.totalDevoluciones == td
    && c.comisionBase == m.comisionBase && c.bonoAdicional == m.bonoAdicional && c.penalizacion == m.penalizacion
    && c.aplicaBono == m.aplicaBono && c.aplicaPenalizacion == m.aplicaPenalizacion
    && c.estado == Calculado && c.observaciones == Some(obs)
  }

  /** The stored row's computed columns agree with the service's own figures. */
  lemma ColumnasCalculadasCoinciden(c: ComisionRow, vendedorId: int, periodo: string, p: Parametros, tv: real, td: real)
    requires Refleja(c, vendedorId, periodo, tv, td, CalcularMontos(tv, td, p),
                     GenerarObservaciones(CalcularMontos(tv, td, p).aplicaBono, CalcularMontos(tv, td, p).aplicaPenalizacion))
    ensures c.ComisionFinal() == CalcularMontos(tv, td, p).comisionFinal
    ensures c.VentasNetas() == CalcularMontos(tv, td, p).ventasNetas
    ensures c.PorcentajeDevoluciones() == CalcularMontos(tv, td, p).porcentajeDevoluciones
  {
    var m := CalcularMontos(tv, td, p);
    if tv > 0.0 {
      PorcentajeEsProporcion(tv, td);
      assert c.PorcentajeDevoluciones() * tv == td * 100.0;
      assert m.porcentajeDevoluciones * tv == td * 100.0;
    }
  }

  /** The columns `actualizarComision` sets; `parametro_id` and the approval and payment dates are left as they were. */
  function Recalculada(c: ComisionRow, tv: real, td: real, m: Montos, obs: string, ahora: string): (r: ComisionRow)
    ensures Refleja(r, c.vendedorId, c.periodo, tv, td, m, obs)
    ensures r.parametroId == c.parametroId && r.fechaCalculo == ahora
    ensures r.fechaAprobacion == c.fechaAprobacion && r.fechaPago == c.fechaPago
  {
    c.(totalVentas := tv, totalDevoluciones := td, comisionBase := m.comisionBase,
       bonoAdicional := m.bonoAdicional, penalizacion := m.penalizacion,
       aplicaBono := m.aplicaBono, aplicaPenalizacion := m.aplicaPenalizacion,
       estado := Calculado, observaciones := Some(obs), fechaCalculo := ahora)
  }

  /**
   * After the upsert: the lookup of (salesperson, period) finds a row that
   * reflects the calculation, the table is the old one with just that key
   * set (rewritten or added), and (salesperson, period) stays unique.
   */
  ghost predicate Guardada(antes: map<int, ComisionRow>, despues: Table<ComisionRow>, vendedorId: int, periodo: string,
                           tv: real, td: real, m: Montos, obs: string)
  {
    && despues.Valid()
    && var g := CM.GetByVendedorPeriodo(despues, vendedorId, periodo);
    && g.Some? && Refleja(g.value.1, vendedorId, periodo, tv, td, m, obs)
    && despues.rows == antes[g.value.0 := g.value.1]
    && (CM.UnicaPorVendedorPeriodo(antes) ==> CM.UnicaPorVendedorPeriodo(despues.rows))
  }

  /** Rewriting the row the lookup found with the recalculated columns completes the upsert. */
  lemma ReescrituraGuardada(antes: Table<ComisionRow>, despues: Table<ComisionRow>, vendedorId: int, periodo: string,
                            tv: real, td: real, m: Montos, obs: string, ahora: string)
    requires antes.Valid() && CM.GetByVendedorPeriodo(antes, vendedorId, periodo).Some?
    requires var k0 := CM.GetByVendedorPeriodo(antes, vendedorId, periodo).value.0;
      despues.Valid() && despues.rows == antes.rows[k0 := Recalculada(antes.rows[k0], tv, td, m, obs, ahora)]
    ensures Guardada(antes.rows, despues, vendedorId, periodo, tv, td, m, obs)
    ensures var k0 := CM.GetByVendedorPeriodo(antes, vendedorId, periodo).value.0;
      CM.GetByVendedorPeriodo(despues, vendedorId, periodo) == Some((k0, despues.rows[k0]))
    ensures CM.SoloPares(antes.rows, despues.rows, {vendedorId}, periodo)
  {
    var k0 := CM.GetByVendedorPeriodo(antes, vendedorId, periodo).value.0;
    var nueva := despues.rows[k0];
    CM.UnaFilaSoloPares(antes.rows, k0, nueva, vendedorId, periodo);
    CM.ReemplazoEncontrada(antes, despues, nueva, vendedorId, periodo);
    if CM.UnicaPorVendedorPeriodo(antes.rows) {
      CM.ReemplazoUnica(antes.rows, k0, nueva);
    }
    var g := CM.GetByVendedorPeriodo(despues, vendedorId, periodo);
    assert g == Some((k0, nueva));
    assert Refleja(g.value.1, vendedorId, periodo, tv, td, m, obs);
  }

  /** Inserting the new row when the lookup found none completes the upsert. */
  lemma AltaGuardada(antes: Table<ComisionRow>, despues: Table<ComisionRow>, id: int, vendedorId: int, periodo: string,
                     tv: real, td: real, m: Montos, obs: string, nueva: ComisionRow)
    requires antes.Valid() && CM.GetByVendedorPeriodo(antes, vendedorId, periodo).None?
    requires Refleja(nueva, vendedorId, periodo, tv, td, m, obs) && id !in antes.rows
    requires despues.Valid() && despues.rows == antes.rows[id := nueva]
    ensures Guardada(antes.rows, despues, vendedorId, periodo, tv, td, m, obs)
    ensures CM.GetByVendedorPeriodo(despues, vendedorId, periodo) == Some((id, nueva))
    ensures CM.SoloPares(antes.rows, despues.rows, {vendedorId}, periodo)
  {
    CM.UnaFilaSoloPares(antes.rows, id, nueva, vendedorId, periodo);
    CM.AltaEncontrada(antes, despues, id, nueva, vendedorId, periodo);
    if CM.UnicaPorVendedorPeriodo(antes.rows) {
      CM.AltaUnica(antes.rows, id, nueva);
    }
    var g := CM.GetByVendedorPeriodo(despues, vendedorId, periodo);
    assert g == Some((id, nueva));
    assert Refleja(g.value.1, vendedorId, periodo, tv, td, m, obs);
  }

  // ------------------------------------------------- what the batch writes

  /** The `$datosComision` array the upsert passes to `create`. */
  function DatosDe(vendedorId: int, parametroId: int, periodo: string, tv: real, td: real, m: Montos, obs: string): CM.DatosComision {
    CM.DatosComision(vendedorId, parametroId, periodo, tv, td, m.comisionBase,
      Some(m.bonoAdicional), Some(m.penalizacion), Some(m.aplicaBono), Some(m.aplicaPenalizacion),
      Some(Calculado), Some(obs))
  }

  /**
   * The table after the upsert of `calcularComisionVendedor`: the row the
   * lookup finds is rewritten by `actualizarComision`, or, when there is
   * none, `create` inserts a new one under the next key. Either way the
   * upsert is complete (`Guardada`), the row it leaves was stamped now, and
   * only rows of that salesperson and period were touched.
   */
  function Guardado(t: Table<ComisionRow>, vendedorId: int, periodo: string, parametroId: int,
                    tv: real, td: real, m: Montos, obs: string, ahora: string): (r: Table<ComisionRow>)
    requires t.Valid()
    ensures Guardada(t.rows, r, vendedorId, periodo, tv, td, m, obs)
    ensures CM.GetByVendedorPeriodo(r, vendedorId, periodo).Some?
    ensures CM.GetByVendedorPeriodo(r, vendedorId, periodo).value.1.fechaCalculo == ahora
    ensures CM.SoloPares(t.rows, r.rows, {vendedorId}, periodo)
  {
    var g := CM.GetByVendedorPeriodo(t, vendedorId, periodo);
    if g.Some? then
      var r := Table(t.rows[g.value.0 := Recalculada(g.value.1, tv, td, m, obs, ahora)], t.next);
      ReescrituraGuardada(t, r, vendedorId, periodo, tv, td, m, obs, ahora);
      r
    else
      var ins := Insert(t, CM.NuevaFila(DatosDe(vendedorId, parametroId, periodo, tv, td, m, obs), ahora));
      AltaGuardada(t, ins.0, ins.1, vendedorId, periodo, tv, td, m, obs,
                   CM.NuevaFila(DatosDe(vendedorId, parametroId, periodo, tv, td, m, obs), ahora));
      ins.0
  }

  /** The notes of a calculation's two flags. */
  function NotasDe(m: Montos): string {
    GenerarObservaciones(m.aplicaBono, m.aplicaPenalizacion)
  }

  /** What one salesperson's calculation does to `comisiones`: the upsert when there are sales, nothing otherwise. */
  function TrasCalculo(t: Table<ComisionRow>, vendedorId: int, periodo: string, p: Parametros,
                       c: ConsultaResumen, ahora: string): (r: Table<ComisionRow>)
    requires t.Valid()
    ensures r.Valid()
  {
    if ConVentas(c) then
      var m := CalcularMontos(c.totalVentas, c.totalDevoluciones, p);
      Guardado(t, vendedorId, periodo, p.id, c.totalVentas, c.totalDevoluciones, m, NotasDe(m), ahora)
    else t
  }

  /** The table after the batch's loop over `vs`, in order. */
  function TrasLote(t: Table<ComisionRow>, vs: seq<(int, VendedorRow)>, periodo: string, p: Parametros,
                    consulta: int -> ConsultaResumen, ahora: string): (r: Table<ComisionRow>)
    requires t.Valid()
    ensures r.Valid()
  {
    if vs == [] then t
    else
      var v := vs[|vs| - 1];
      TrasCalculo(TrasLote(t, vs[..|vs| - 1], periodo, p, consulta, ahora), v.0, periodo, p, consulta(v.0), ahora)
  }

  lemma TrasLotePaso(t: Table<ComisionRow>, vs: seq<(int, VendedorRow)>, i: nat, periodo: string, p: Parametros,
                     consulta: int -> ConsultaResumen, ahora: string)
    requires t.Valid() && i < |vs|
    ensures TrasLote(t, vs[..i + 1], periodo, p, consulta, ahora)
            == TrasCalculo(TrasLote(t, vs[..i], periodo, p, consulta, ahora), vs[i].0, periodo, p, consulta(vs[i].0), ahora)
  {
    assert vs[..i + 1][..i] == vs[..i];
  }

  /** The salespeople of `vs` whose calculation writes a row: those with sales. */
  function Calculados(vs: seq<(int, VendedorRow)>, consulta: int -> ConsultaResumen): (xs: set<int>)
    ensures forall x :: x in xs <==> exists i :: 0 <= i < |vs| && vs[i].0 == x && ConVentas(consulta(x))
  {
    if vs == [] then {}
    else
      var n := |vs| - 1;
      var previos := Calculados(vs[..n], consulta);
      assert forall i :: 0 <= i < n ==> vs[..n][i] == vs[i];
      previos + (if ConVentas(consulta(vs[n].0)) then {vs[n].0} else {})
  }

  /**
   * After a salesperson's calculation: with sales, the lookup of the
   * salesperson and period finds a row holding that calculation, stamped
   * `ahora`.
   */
  ghost predicate Reflejada(t: Table<ComisionRow>, vendedorId: int, periodo: string, p: Parametros,
                            c: ConsultaResumen, ahora: string)
    requires t.Valid()
  {
    ConVentas(c) ==>
      var m := CalcularMontos(c.totalVentas, c.totalDevoluciones, p);
      var g := CM.GetByVendedorPeriodo(t, vendedorId, periodo);
      && g.Some? && Refleja(g.value.1, vendedorId, periodo, c.totalVentas, c.totalDevoluciones, m, NotasDe(m))
      && g.value.1.fechaCalculo == ahora
  }

  /** A calculation already reflected in the table rewrites its row with what it holds: nothing changes. */
  lemma TrasCalculoFijo(t: Table<ComisionRow>, vendedorId: int, periodo: string, p: Parametros,
                        c: ConsultaResumen, ahora: string)
    requires t.Valid() && Reflejada(t, vendedorId, periodo, p, c, ahora)
    ensures TrasCalculo(t, vendedorId, periodo, p, c, ahora) == t
  {
    if ConVentas(c) {
      var m := CalcularMontos(c.totalVentas, c.totalDevoluciones, p);
      var g := CM.GetByVendedorPeriodo(t, vendedorId, periodo);
      assert Recalculada(g.value.1, c.totalVentas, c.totalDevoluciones, m, NotasDe(m), ahora) == g.value.1;
      assert t.rows[g.value.0 := g.value.1] == t.rows;
    }
  }

  /**
   * What the loop leaves in `comisiones`: every salesperson of `vs` with
   * sales has the row of the period holding that calculation, stamped now.
   */
  lemma {:induction false} TrasLoteRefleja(t: Table<ComisionRow>, vs: seq<(int, VendedorRow)>, periodo: string, p: Parametros,
                                           consulta: int -> ConsultaResumen, ahora: string)
    requires t.Valid()
    ensures forall i :: 0 <= i < |vs| ==>
      Reflejada(TrasLote(t, vs, periodo, p, consulta, ahora), vs[i].0, periodo, p, consulta(vs[i].0), ahora)
  {
    if vs != [] {
      var n := |vs| - 1;
      var v := vs[n];
      TrasLoteRefleja(t, vs[..n], periodo, p, consulta, ahora);
      var antes := TrasLote(t, vs[..n], periodo, p, consulta, ahora);
      var despues := TrasLote(t, vs, periodo, p, consulta, ahora);
      assert despues == TrasCalculo(antes, v.0, periodo, p, consulta(v.0), ahora);
      TrasCalculoRefleja(antes, v.0, periodo, p, consulta(v.0), ahora);
      forall i | 0 <= i < n
        ensures Reflejada(despues, vs[i].0, periodo, p, consulta(vs[i].0), ahora)
      {
        assert vs[..n][i] == vs[i];
        if vs[i].0 != v.0 {
          TrasCalculoConserva(antes, v.0, periodo, p, consulta(v.0), ahora, vs[i].0, consulta(vs[i].0));
        }
      }
    }
  }

  /** A salesperson's calculation is reflected in the table it leaves. */
  lemma TrasCalculoRefleja(t: Table<ComisionRow>, vendedorId: int, periodo: string, p: Parametros,
                           c: ConsultaResumen, ahora: string)
    requires t.Valid()
    ensures Reflejada(TrasCalculo(t, vendedorId, periodo, p, c, ahora), vendedorId, periodo, p, c, ahora)
  {
  }

  /** Calculating one salesperson keeps what the table reflects of another. */
  lemma TrasCalculoConserva(t: Table<ComisionRow>, vendedorId: int, periodo: string, p: Parametros,
                            c: ConsultaResumen, ahora: string, otro: int, co: ConsultaResumen)
    requires t.Valid() && otro != vendedorId && Reflejada(t, otro, periodo, p, co, ahora)
    ensures Reflejada(TrasCalculo(t, vendedorId, periodo, p, c, ahora), otro, periodo, p, co, ahora)
  {
    if ConVentas(c) {
      CM.BusquedaIntacta(t, TrasCalculo(t, vendedorId, periodo, p, c, ahora), {vendedorId}, otro, periodo);
    }
  }

  /** The loop changes or adds only rows of the period whose salesperson it calculated with sales. */
  lemma {:induction false} TrasLoteSoloPares(t: Table<ComisionRow>, vs: seq<(int, VendedorRow)>, periodo: string, p: Parametros,
                                             consulta: int -> ConsultaResumen, ahora: string)
    requires t.Valid()
    ensures CM.SoloPares(t.rows, TrasLote(t, vs, periodo, p, consulta, ahora).rows, Calculados(vs, consulta), periodo)
  {
    if vs != [] {
      var n := |vs| - 1;
      var v := vs[n];
      TrasLoteSoloPares(t, vs[..n], periodo, p, consulta, ahora);
      var antes := TrasLote(t, vs[..n], periodo, p, consulta, ahora);
      var despues := TrasLote(t, vs, periodo, p, consulta, ahora);
      assert despues == TrasCalculo(antes, v.0, periodo, p, consulta(v.0), ahora);
      var xs := Calculados(vs[..n], consulta);
      if ConVentas(consulta(v.0)) {
        CM.SoloParesTransitivo(t.rows, antes.rows, despues.rows, xs, {v.0}, periodo);
        assert Calculados(vs, consulta) == xs + {v.0};
      } else {
        assert Calculados(vs, consulta) == xs;
      }
    }
  }

  /** A loop over salespeople whose calculations the table already reflects changes nothing. */
  lemma {:induction false} TrasLoteFijo(t: Table<ComisionRow>, vs: seq<(int, VendedorRow)>, periodo: string, p: Parametros,
                                        consulta: int -> ConsultaResumen, ahora: string)
    requires t.Valid()
    requires forall i :: 0 <= i < |vs| ==> Reflejada(t, vs[i].0, periodo, p, consulta(vs[i].0), ahora)
    ensures TrasLote(t, vs, periodo, p, consulta, ahora) == t
  {
    if vs != [] {
      var n := |vs| - 1;
      forall i | 0 <= i < n ensures Reflejada(t, vs[..n][i].0, periodo, p, consulta(vs[..n][i].0), ahora) {
        assert vs[..n][i] == vs[i];
      }
      TrasLoteFijo(t, vs[..n], periodo, p, consulta, ahora);
      TrasCalculoFijo(t, vs[n].0, periodo, p, consulta(vs[n].0), ahora);
    }
  }

  /**
   * Recalculating a period with the same sales, rule set and clock leaves
   * `comisiones` as the first calculation left it.
   */
  lemma TrasLoteIdempotente(t: Table<ComisionRow>, vs: seq<(int, VendedorRow)>, periodo: string, p: Parametros,
                            consulta: int -> ConsultaResumen, ahora: string)
    requires t.Valid()
    ensures var una := TrasLote(t, vs, periodo, p, consulta, ahora);
      TrasLote(una, vs, periodo, p, consulta, ahora) == una
  {
    TrasLoteRefleja(t, vs, periodo, p, consulta, ahora);
    TrasLoteFijo(TrasLote(t, vs, periodo, p, consulta, ahora), vs, periodo, p, consulta, ahora);
  }

  // ------------------------------------------------------------- batch spec

  /** The counters and errors list of `calcularComisionesPeriodo`. */
  datatype Resultados = Resultados(procesados: nat, exitosos: nat, errores: seq<string>, totalComisiones: real)

  function MensajeError(nombre: string, mensaje: string): string {
    "Error vendedor " + nombre + ": " + mensaje
  }

  /**
   * What `calcularComisionVendedor` returns for a summary: the exception of
   * a failed summary; null for no row or zero sales; otherwise the
   * calculated record, with the amounts of `CalcularMontos` and the notes
   * of its two flags.
   */
  function Resultado(c: ConsultaResumen, vendedorId: int, periodo: string, p: Parametros): (r: Result<Option<Calculada>>)
    ensures r.Err? <==> c.Falla?
    ensures r.Err? ==> r.message == c.mensaje
    ensures r == Ok(None) <==> !c.Falla? && !ConVentas(c)
    ensures r.Ok? && r.value.Some? ==>
      var k := r.value.value;
      && k.vendedorId == vendedorId && k.parametroId == p.id && k.periodo == periodo
      && k.totalVentas == c.totalVentas && k.totalDevoluciones == c.totalDevoluciones
      && k.montos == CalcularMontos(c.totalVentas, c.totalDevoluciones, p)
      && k.observaciones == GenerarObservaciones(k.montos.aplicaBono, k.montos.aplicaPenalizacion)
  {
    if c.Falla? then Err(c.mensaje)
    else if !ConVentas(c) then Ok(None)
    else
      var m := CalcularMontos(c.totalVentas, c.totalDevoluciones, p);
      Ok(Some(Calculada(vendedorId, p.id, periodo, c.totalVentas, c.totalDevoluciones, m,
                        GenerarObservaciones(m.aplicaBono, m.aplicaPenalizacion))))
  }

  /** The `try`/`catch` bookkeeping of one salesperson, from what the calculation returned or threw. */
  function Anotar(res: Resultados, nombre: string, r: Result<Option<Calculada>>): Resultados {
    match r
    case Err(msg) => res.(procesados := res.procesados + 1, errores := res.errores + [MensajeError(nombre, msg)])
    case Ok(None) => res.(procesados := res.procesados + 1)
    case Ok(Some(k)) => Resultados(res.procesados + 1, res.exitosos + 1, res.errores, res.totalComisiones + k.montos.comisionFinal)
  }

  /**
   * The results after the salespeople `vs`, in order, each one's outcome
   * recorded as the loop does: every one is processed, and successes and
   * errors together never outnumber them (`EsperadosCuenta` gives each).
   */
  function Esperados(vs: seq<(int, VendedorRow)>, periodo: string, consulta: int -> ConsultaResumen, p: Parametros): (r: Resultados)
    ensures r.procesados == |vs|
    ensures r.exitosos + |r.errores| <= r.procesados
  {
    if vs == [] then Resultados(0, 0, [], 0.0)
    else
      var v := vs[|vs| - 1];
      Anotar(Esperados(vs[..|vs| - 1], periodo, consulta, p), v.1.nombre, Resultado(consulta(v.0), v.0, periodo, p))
  }

  lemma EsperadosPaso(vs: seq<(int, VendedorRow)>, i: nat, periodo: string, consulta: int -> ConsultaResumen, p: Parametros)
    requires i < |vs|
    ensures Esperados(vs[..i + 1], periodo, consulta, p)
            == Anotar(Esperados(vs[..i], periodo, consulta, p), vs[i].1.nombre, Resultado(consulta(vs[i].0), vs[i].0, periodo, p))
  {
    assert vs[..i + 1][..i] == vs[..i];
  }

  /** The salesperson's summary has sales: the calculation succeeds. */
  function Exitoso(consulta: int -> ConsultaResumen): ((int, VendedorRow)) -> bool {
    (v: (int, VendedorRow)) => ConVentas(consulta(v.0))
  }

  /** The salesperson's summary failed: the calculation throws. */
  function Fallido(consulta: int -> ConsultaResumen): ((int, VendedorRow)) -> bool {
    (v: (int, VendedorRow)) => consulta(v.0).Falla?
  }

  /** The final commission a salesperson adds to the batch total: 0 without sales. */
  function ComisionDe(consulta: int -> ConsultaResumen, p: Parametros): ((int, VendedorRow)) -> real {
    (v: (int, VendedorRow)) => if ConVentas(consulta(v.0))
         then CalcularMontos(consulta(v.0).totalVentas, consulta(v.0).totalDevoluciones, p).comisionFinal
         else 0.0
  }

  /**
   * The counters of the batch: the successes are the salespeople with
   * sales, the errors those whose summary failed, and the total is the sum
   * of the successful final commissions.
   */
  lemma {:induction false} EsperadosCuenta(vs: seq<(int, VendedorRow)>, periodo: string, consulta: int -> ConsultaResumen, p: Parametros)
    ensures Esperados(vs, periodo, consulta, p).exitosos == CountOf(vs, Exitoso(consulta))
    ensures |Esperados(vs, periodo, consulta, p).errores| == CountOf(vs, Fallido(consulta))
    ensures Esperados(vs, periodo, consulta, p).totalComisiones == SumOf(vs, ComisionDe(consulta, p))
  {
    if vs != [] {
      var n := |vs| - 1;
      var v := vs[n];
      EsperadosCuenta(vs[..n], periodo, consulta, p);
      assert vs == vs[..n] + [v];
      FilterAppend(vs[..n], v, Exitoso(consulta));
      FilterAppend(vs[..n], v, Fallido(consulta));
      SumOfAppend(vs[..n], v, ComisionDe(consulta, p));
      AnotarCuenta(Esperados(vs[..n], periodo, consulta, p), v, periodo, consulta, p);
    }
  }

  /** One salesperson's outcome moves each counter by what that salesperson contributes. */
  lemma AnotarCuenta(res: Resultados, v: (int, VendedorRow), periodo: string, consulta: int -> ConsultaResumen, p: Parametros)
    ensures var r := Anotar(res, v.1.nombre, Resultado(consulta(v.0), v.0, periodo, p));
      && r.exitosos == res.exitosos + (if Exitoso(consulta)(v) then 1 else 0)
      && |r.errores| == |res.errores| + (if Fallido(consulta)(v) then 1 else 0)
      && r.totalComisiones == res.totalComisiones + ComisionDe(consulta, p)(v)
  {
  }

  /** Every error message names the salesperson it is about. */
  lemma {:induction false} ErroresNombranVendedor(vs: seq<(int, VendedorRow)>, periodo: string, consulta: int -> ConsultaResumen, p: Parametros, i: nat)
    requires i < |Esperados(vs, periodo, consulta, p).errores|
    ensures exists j :: 0 <= j < |vs| && consulta(vs[j].0).Falla? &&
              Esperados(vs, periodo, consulta, p).errores[i] == MensajeError(vs[j].1.nombre, consulta(vs[j].0).mensaje)
  {
    var prev := Esperados(vs[..|vs| - 1], periodo, consulta, p);
    var v := vs[|vs| - 1];
    if i < |prev.errores| {
      ErroresNombranVendedor(vs[..|vs| - 1], periodo, consulta, p, i);
      var j :| 0 <= j < |vs[..|vs| - 1]| && consulta(vs[..|vs| - 1][j].0).Falla?
        && prev.errores[i] == MensajeError(vs[..|vs| - 1][j].1.nombre, consulta(vs[..|vs| - 1][j].0).mensaje);
      assert vs[..|vs| - 1][j] == vs[j];
    } else {
      assert consulta(v.0).Falla?;
    }
  }

  /** With no summary failing, every salesperson either succeeds or has no sales: no error at all. */
  lemma {:induction false} SinFallasSinErrores(vs: seq<(int, VendedorRow)>, periodo: string, consulta: int -> ConsultaResumen, p: Parametros)
    requires forall i :: 0 <= i < |vs| ==> !consulta(vs[i].0).Falla?
    ensures Esperados(vs, periodo, consulta, p).errores == []
  {
    if vs != [] {
      SinFallasSinErrores(vs[..|vs| - 1], periodo, consulta, p);
    }
  }

  // ------------------------------------------------------ dashboard metrics

  /** `parte / total * 100`, or 0 when there is no total. */
  function Porcentaje(parte: nat, total: nat): (r: real)
    ensures total == 0 ==> r == 0.0
    ensures parte <= total ==> 0.0 <= r <= 100.0
  {
    if total == 0 then 0.0
    else
      var q := (parte as real) / (total as real);
      assert q * (total as real) == parte as real;
      assert parte <= total ==> q <= 1.0;
      q * 100.0
  }

  /** The percentage times the total is a hundred times the part. */
  lemma PorcentajeDeTotal(parte: nat, total: nat)
    requires total > 0
    ensures Porcentaje(parte, total) * (total as real) == (parte as real) * 100.0
  {
    var q := (parte as real) / (total as real);
    assert q * (total as real) == parte as real;
  }

  /**
   * The `dashboard_metrics` row for a period: the summary's net sales,
   * total commission, salesperson count, bonus count and mean return ratio,
   * and the share of salespeople with a bonus as a percentage (0 with no
   * salespeople). With one row per salesperson and period the share lies
   * between 0 and 100 (`PorcentajeAcotado`).
   */
  function MetricasDe(t: Table<ComisionRow>, periodo: string, ahora: string): (m: MetricsRow)
    requires t.Valid()
    ensures var res := CM.GetResumenPeriodo(t, periodo);
      && m.totalVentas == res.ventasNetas && m.totalComisiones == res.totalComisiones
      && m.numeroVendedores == res.totalVendedores && m.vendedoresConBono == res.vendedoresConBono
      && m.promedioDevoluciones == res.promedioDevoluciones && m.fechaActualizacion == ahora
      && m.porcentajeConBono == Porcentaje(res.vendedoresConBono.GetOr(0), res.totalVendedores)
  {
    var res := CM.GetResumenPeriodo(t, periodo);
    MetricsRow(res.ventasNetas, res.totalComisiones, res.totalVendedores, res.vendedoresConBono,
               Porcentaje(res.vendedoresConBono.GetOr(0), res.totalVendedores), res.promedioDevoluciones, ahora)
  }

  /** With one row per salesperson and period, the bonus share is a percentage: between 0 and 100. */
  lemma PorcentajeAcotado(t: Table<ComisionRow>, periodo: string, ahora: string)
    requires t.Valid() && CM.UnicaPorVendedorPeriodo(t.rows)
    ensures 0.0 <= MetricasDe(t, periodo, ahora).porcentajeConBono <= 100.0
  {
    CM.ConBonoAcotado(t, periodo);
    var res := CM.GetResumenPeriodo(t, periodo);
    assert res.vendedoresConBono.GetOr(0) <= res.totalVendedores;
  }

  // -------------------------------------------------- approve and pay spec

  /** The table after one `updateEstado(k, estado, obs)`: a missing id changes nothing. */
  function Aplicado(rows: map<int, ComisionRow>, k: int, estado: Estado, obs: Option<string>, ahora: string): map<int, ComisionRow> {
    if k in rows then rows[k := CM.ConEstado(rows[k], estado, obs, ahora)] else rows
  }

  /** Whether that call reports a changed row. */
  predicate Cambia(rows: map<int, ComisionRow>, k: int, estado: Estado, obs: Option<string>, ahora: string) {
    k in rows && CM.ConEstado(rows[k], estado, obs, ahora) != rows[k]
  }

  /** The table after `updateEstado(id, estado, obs)` for each of `ids` in turn; no row is added or removed. */
  function TrasEstados(rows: map<int, ComisionRow>, ids: seq<int>, estado: Estado, obs: Option<string>, ahora: string): (r: map<int, ComisionRow>)
    ensures r.Keys == rows.Keys
  {
    if ids == [] then rows
    else Aplicado(TrasEstados(rows, ids[..|ids| - 1], estado, obs, ahora), ids[|ids| - 1], estado, obs, ahora)
  }

  /**
   * What the calls do: a row whose id was given ends in the new state with
   * the new notes, any other row is untouched, and no row changes its
   * salesperson, period or final amount.
   */
  lemma {:induction false} TrasEstadosEfecto(rows: map<int, ComisionRow>, ids: seq<int>, estado: Estado, obs: Option<string>, ahora: string)
    ensures var r := TrasEstados(rows, ids, estado, obs, ahora);
      forall k :: k in rows ==>
        && (k !in ids ==> r[k] == rows[k])
        && (k in ids ==> r[k].estado == estado && r[k].observaciones == obs)
        && r[k].vendedorId == rows[k].vendedorId && r[k].periodo == rows[k].periodo
        && r[k].ComisionFinal() == rows[k].ComisionFinal()
  {
    if ids != [] {
      var previos := ids[..|ids| - 1];
      var ultimo := ids[|ids| - 1];
      TrasEstadosEfecto(rows, previos, estado, obs, ahora);
      var antes := TrasEstados(rows, previos, estado, obs, ahora);
      var r := TrasEstados(rows, ids, estado, obs, ahora);
      assert r == Aplicado(antes, ultimo, estado, obs, ahora);
      forall k | k in rows
        ensures k !in ids ==> r[k] == rows[k]
        ensures k in ids ==> r[k].estado == estado && r[k].observaciones == obs
        ensures r[k].vendedorId == rows[k].vendedorId && r[k].periodo == rows[k].periodo
        ensures r[k].ComisionFinal() == rows[k].ComisionFinal()
      {
        assert k in ids <==> k in previos || k == ultimo;
        if k != ultimo {
          assert r[k] == antes[k];
        }
      }
    }
  }

  /** How many of those `updateEstado` calls reported a changed row: never more than the ids given. */
  function Cambios(rows: map<int, ComisionRow>, ids: seq<int>, estado: Estado, obs: Option<string>, ahora: string): (n: nat)
    ensures n <= |ids|
  {
    if ids == [] then 0
    else
      var prev := TrasEstados(rows, ids[..|ids| - 1], estado, obs, ahora);
      Cambios(rows, ids[..|ids| - 1], estado, obs, ahora)
        + (if Cambia(prev, ids[|ids| - 1], estado, obs, ahora) then 1 else 0)
  }

  /** One more id: the table and count after a prefix, extended by one call. */
  lemma TrasEstadosPaso(rows: map<int, ComisionRow>, ids: seq<int>, i: nat, estado: Estado, obs: Option<string>, ahora: string)
    requires i < |ids|
    ensures TrasEstados(rows, ids[..i + 1], estado, obs, ahora)
            == Aplicado(TrasEstados(rows, ids[..i], estado, obs, ahora), ids[i], estado, obs, ahora)
    ensures Cambios(rows, ids[..i + 1], estado, obs, ahora)
            == Cambios(rows, ids[..i], estado, obs, ahora)
               + (if Cambia(TrasEstados(rows, ids[..i], estado, obs, ahora), ids[i], estado, obs, ahora) then 1 else 0)
  {
    assert ids[..i + 1][..i] == ids[..i];
  }

  /** The single-id case the controller uses: the count is 1 exactly when that row changed. */
  lemma CambioUnico(rows: map<int, ComisionRow>, id: int, estado: Estado, obs: Option<string>, ahora: string)
    ensures Cambios(rows, [id], estado, obs, ahora) == 1 <==>
      id in rows && CM.ConEstado(rows[id], estado, obs, ahora) != rows[id]
  {
    assert [id][..0] == [];
  }

  // ----------------------------------------------------------- the service

  /** The outcome of `recalcularComisiones`: one salesperson's calculation, or a whole batch. */
  datatype Recalculo = Individual(calculada: Option<Calculada>) | Lote(resultados: Resultados)

  /** PHP truthiness of the optional salesperson id. */
  predicate IdIndicado(vendedorId: Option<int>) {
    vendedorId.Some? && vendedorId.value != 0
  }

  class ComisionService {
    const db: Database
    const comisionModel: CM.Comision

    /** The service and its model share one connection. */
    predicate Conectado() {
      comisionModel.db == db
    }

    constructor (db: Database)
      ensures this.db == db && Conectado()
    {
      this.db := db;
      this.comisionModel := new CM.Comision(db);
    }

    /**
     * `actualizarComision`: overwrite the computed columns of row `id`,
     * reset it to `calculado` and stamp `fecha_calculo`. The source binds
     * the whole `$datos` array, whose `vendedor_id`, `parametro_id` and
     * `periodo` keys have no placeholder in this UPDATE; the model keeps the
     * overwrite the statement describes.
     */
    method ActualizarComision(id: int, tv: real, td: real, m: Montos, obs: string, ahora: string)
      requires db.Valid() && id in db.comisiones.rows
      modifies db`comisiones
      ensures db.Valid() && db.comisiones.next == old(db.comisiones.next)
      ensures db.comisiones.rows == old(db.comisiones.rows)[id := Recalculada(old(db.comisiones.rows)[id], tv, td, m, obs, ahora)]
    {
      db.comisiones := Table(db.comisiones.rows[id := Recalculada(db.comisiones.rows[id], tv, td, m, obs, ahora)], db.comisiones.next);
    }

    /** The upsert's update branch: the row of (salesperson, period) exists and is rewritten. */
    method Reescribir(vendedorId: int, periodo: string, tv: real, td: real, m: Montos, obs: string, ahora: string)
      requires db.Valid() && CM.GetByVendedorPeriodo(db.comisiones, vendedorId, periodo).Some?
      modifies db`comisiones
      ensures db.Valid()
      ensures var k0 := CM.GetByVendedorPeriodo(old(db.comisiones), vendedorId, periodo).value.0;
        db.comisiones == Table(old(db.comisiones.rows)[k0 := Recalculada(old(db.comisiones.rows)[k0], tv, td, m, obs, ahora)],
                               old(db.comisiones.next))
      ensures Guardada(old(db.comisiones.rows), db.comisiones, vendedorId, periodo, tv, td, m, obs)
    {
      var k0 := CM.GetByVendedorPeriodo(db.comisiones, vendedorId, periodo).value.0;
      ghost var antes := db.comisiones;
      ActualizarComision(k0, tv, td, m, obs, ahora);
      ReescrituraGuardada(antes, db.comisiones, vendedorId, periodo, tv, td, m, obs, ahora);
    }

    /** The upsert's insert branch: there is no row of (salesperson, period) yet. */
    method Alta(vendedorId: int, periodo: string, parametroId: int, tv: real, td: real, m: Montos, obs: string, ahora: string)
      requires db.Valid() && Conectado() && CM.GetByVendedorPeriodo(db.comisiones, vendedorId, periodo).None?
      modifies db`comisiones
      ensures db.Valid()
      ensures db.comisiones == Insert(old(db.comisiones), CM.NuevaFila(DatosDe(vendedorId, parametroId, periodo, tv, td, m, obs), ahora)).0
      ensures Guardada(old(db.comisiones.rows), db.comisiones, vendedorId, periodo, tv, td, m, obs)
    {
      ghost var antes := db.comisiones;
      var datos := DatosDe(vendedorId, parametroId, periodo, tv, td, m, obs);
      var id := comisionModel.Create(datos, ahora);
      AltaGuardada(antes, db.comisiones, id, vendedorId, periodo, tv, td, m, obs, CM.NuevaFila(datos, ahora));
    }

    /**
     * The upsert at the end of `calcularComisionVendedor`: rewrite the row of
     * (salesperson, period) when there is one, else insert a new one with
     * the given rule set.
     */
    method Guardar(vendedorId: int, periodo: string, parametroId: int, tv: real, td: real, m: Montos, obs: string, ahora: string)
      requires db.Valid() && Conectado()
      modifies db`comisiones
      ensures db.Valid()
      ensures db.comisiones == Guardado(old(db.comisiones), vendedorId, periodo, parametroId, tv, td, m, obs, ahora)
    {
      var existente := CM.GetByVendedorPeriodo(db.comisiones, vendedorId, periodo);
      if existente.Some? {
        Reescribir(vendedorId, periodo, tv, td, m, obs, ahora);
      } else {
        Alta(vendedorId, periodo, parametroId, tv, td, m, obs, ahora);
      }
    }

    /**
     * `calcularComisionVendedor`. A failed summary throws and writes
     * nothing; no row or zero sales returns null and writes nothing.
     * Otherwise the amounts are `CalcularMontos` of the totals and the notes
     * follow from its two flags, and the table ends with the row of
     * (salesperson, period) holding them in state `calculado` (`Guardada`).
     */
    method CalcularComisionVendedor(vendedorId: int, periodo: string, p: Parametros, consulta: ConsultaResumen, ahora: string)
      returns (r: Result<Option<Calculada>>)
      requires db.Valid() && Conectado()
      modifies db`comisiones
      ensures db.Valid()
      ensures CM.UnicaPorVendedorPeriodo(old(db.comisiones.rows)) ==> CM.UnicaPorVendedorPeriodo(db.comisiones.rows)
      ensures r == Resultado(consulta, vendedorId, periodo, p)
      ensures db.comisiones == TrasCalculo(old(db.comisiones), vendedorId, periodo, p, consulta, ahora)
      ensures !ConVentas(consulta) ==> db.comisiones == old(db.comisiones)
      ensures ConVentas(consulta) ==>
        var m := CalcularMontos(consulta.totalVentas, consulta.totalDevoluciones, p);
        Guardada(old(db.comisiones.rows), db.comisiones, vendedorId, periodo, consulta.totalVentas, consulta.totalDevoluciones,
                 m, NotasDe(m))
    {
      if consulta.Falla? {
        return Err(consulta.mensaje);
      }
      if !ConVentas(consulta) {
        return Ok(None);
      }
      var tv, td := consulta.totalVentas, consulta.totalDevoluciones;
      var m := CalcularMontos(tv, td, p);
      var obs := NotasDe(m);
      Guardar(vendedorId, periodo, p.id, tv, td, m, obs, ahora);
      r := Ok(Some(Calculada(vendedorId, p.id, periodo, tv, td, m, obs)));
    }

    /** The private `actualizarMetricasDashboard`: upsert the period's metrics row. */
    method ActualizarMetricasDashboard(periodo: string, ahora: string)
      requires db.Valid()
      modifies db`metrics
      ensures db.metrics == old(db.metrics)[periodo := MetricasDe(db.comisiones, periodo, ahora)]
    {
      db.metrics := db.metrics[periodo := MetricasDe(db.comisiones, periodo, ahora)];
    }

    /** One pass of the `foreach` of `calcularComisionesPeriodo`: a failure is caught and recorded. */
    method ProcesarVendedor(res: Resultados, v: (int, VendedorRow), periodo: string, p: Parametros,
                            c: ConsultaResumen, ahora: string) returns (res2: Resultados)
      requires db.Valid() && Conectado()
      modifies db`comisiones
      ensures db.Valid()
      ensures res2 == Anotar(res, v.1.nombre, Resultado(c, v.0, periodo, p))
      ensures db.comisiones == TrasCalculo(old(db.comisiones), v.0, periodo, p, c, ahora)
      ensures CM.UnicaPorVendedorPeriodo(old(db.comisiones.rows)) ==> CM.UnicaPorVendedorPeriodo(db.comisiones.rows)
    {
      var r := CalcularComisionVendedor(v.0, periodo, p, c, ahora);
      res2 := Anotar(res, v.1.nombre, r);
    }

    /**
     * The `foreach` of `calcularComisionesPeriodo`: calculate each
     * salesperson in turn, catching a failure as an error of the batch.
     */
    method ProcesarVendedores(vs: seq<(int, VendedorRow)>, periodo: string, p: Parametros,
                              consulta: int -> ConsultaResumen, ahora: string) returns (res: Resultados)
      requires db.Valid() && Conectado()
      modifies db`comisiones
      ensures db.Valid()
      ensures res == Esperados(vs, periodo, consulta, p)
      ensures db.comisiones == TrasLote(old(db.comisiones), vs, periodo, p, consulta, ahora)
      ensures CM.UnicaPorVendedorPeriodo(old(db.comisiones.rows)) ==> CM.UnicaPorVendedorPeriodo(db.comisiones.rows)
    {
      res := Resultados(0, 0, [], 0.0);
      var i := 0;
      while i < |vs|
        invariant 0 <= i <= |vs|
        invariant db.Valid()
        invariant res == Esperados(vs[..i], periodo, consulta, p)
        invariant db.comisiones == TrasLote(old(db.comisiones), vs[..i], periodo, p, consulta, ahora)
        invariant CM.UnicaPorVendedorPeriodo(old(db.comisiones.rows)) ==> CM.UnicaPorVendedorPeriodo(db.comisiones.rows)
      {
        EsperadosPaso(vs, i, periodo, consulta, p);
        TrasLotePaso(old(db.comisiones), vs, i, periodo, p, consulta, ahora);
        res := ProcesarVendedor(res, vs[i], periodo, p, consulta(vs[i].0), ahora);
        i := i + 1;
      }
      assert vs[..|vs|] == vs;
    }

    /** The transaction of `calcularComisionesPeriodo` once it has its rule set and the active salespeople: the loop, the metrics, the commit. */
    method EjecutarLote(vs: seq<(int, VendedorRow)>, periodo: string, p: Parametros, consulta: int -> ConsultaResumen, ahora: string)
      returns (res: Resultados)
      requires db.Valid() && db.saved.Some? && Conectado()
      modifies db`comisiones, db`metrics, db`saved
      ensures db.Valid() && db.saved == None
      ensures res == Esperados(vs, periodo, consulta, p)
      ensures db.comisiones == TrasLote(old(db.comisiones), vs, periodo, p, consulta, ahora)
      ensures db.metrics == old(db.metrics)[periodo := MetricasDe(db.comisiones, periodo, ahora)]
      ensures CM.UnicaPorVendedorPeriodo(old(db.comisiones.rows)) ==> CM.UnicaPorVendedorPeriodo(db.comisiones.rows)
    {
      res := ProcesarVendedores(vs, periodo, p, consulta, ahora);
      CerrarLote(periodo, ahora);
    }

    /** The end of the transaction: refresh the period's metrics, then commit. */
    method CerrarLote(periodo: string, ahora: string)
      requires db.Valid() && db.saved.Some?
      modifies db`metrics, db`saved
      ensures db.Valid() && db.saved == None
      ensures db.metrics == old(db.metrics)[periodo := MetricasDe(db.comisiones, periodo, ahora)]
    {
      ActualizarMetricasDashboard(periodo, ahora);
      db.Commit();
    }

    /**
     * `calcularComisionesPeriodo`. Without parameters the transaction is
     * rolled back and every table is as before. Otherwise each active
     * salesperson (by name) is calculated, a failure is recorded and the
     * loop goes on, the counters are `Esperados` of that list, the metrics
     * row of the period is refreshed, and the transaction commits.
     */
    method CalcularComisionesPeriodo(periodo: string, parametros: Option<Parametros>,
                                     consulta: int -> ConsultaResumen, ahora: string)
      returns (r: Result<Resultados>)
      requires db.Valid() && db.saved == None && Conectado()
      modifies db
      ensures db.Valid() && db.saved == None
      ensures parametros.None? ==> r == Err(ERROR_SIN_PARAMETROS) && db.Current() == old(db.Current())
      ensures parametros.Some? ==>
        && r == Ok(Esperados(VM.GetAll(old(db.vendedores), Some(ACTIVO)), periodo, consulta, parametros.value))
        && db.comisiones == TrasLote(old(db.comisiones), VM.GetAll(old(db.vendedores), Some(ACTIVO)), periodo, parametros.value, consulta, ahora)
        && db.vendedores == old(db.vendedores) && db.productos == old(db.productos)
        && db.ventas == old(db.ventas) && db.logs == old(db.logs)
        && db.metrics == old(db.metrics)[periodo := MetricasDe(db.comisiones, periodo, ahora)]
        && (CM.UnicaPorVendedorPeriodo(old(db.comisiones.rows)) ==> CM.UnicaPorVendedorPeriodo(db.comisiones.rows))
    {
      db.BeginTransaction();
      if parametros.None? {
        db.Rollback();
        return Err(ERROR_SIN_PARAMETROS);
      }
      var vs := VM.GetAll(db.vendedores, Some(ACTIVO));
      var res := EjecutarLote(vs, periodo, parametros.value, consulta, ahora);
      r := Ok(res);
    }

    /** `aprobarComisiones`: `updateEstado(id, aprobado)` for each id; the count of rows that changed. */
    method AprobarComisiones(ids: seq<int>, ahora: string) returns (n: nat)
      requires db.Valid() && Conectado()
      modifies db`comisiones
      ensures db.Valid() && db.comisiones.next == old(db.comisiones.next)
      ensures db.comisiones.rows == TrasEstados(old(db.comisiones.rows), ids, Aprobado, None, ahora)
      ensures n == Cambios(old(db.comisiones.rows), ids, Aprobado, None, ahora) && n <= |ids|
    {
      n := 0;
      var i := 0;
      while i < |ids|
        invariant 0 <= i <= |ids|
        invariant db.Valid() && db.comisiones.next == old(db.comisiones.next)
        invariant db.comisiones.rows == TrasEstados(old(db.comisiones.rows), ids[..i], Aprobado, None, ahora)
        invariant n == Cambios(old(db.comisiones.rows), ids[..i], Aprobado, None, ahora)
      {
        TrasEstadosPaso(old(db.comisiones.rows), ids, i, Aprobado, None, ahora);
        ghost var antes := db.comisiones.rows;
        var ok := comisionModel.UpdateEstado(ids[i], Aprobado, None, ahora);
        assert ok == Cambia(antes, ids[i], Aprobado, None, ahora);
        if ok {
          n := n + 1;
        }
        i := i + 1;
      }
      assert ids[..|ids|] == ids;
    }

    /** `marcarComoPagadas`: `updateEstado(id, pagado, obs)` for each id; the count of rows that changed. */
    method MarcarComoPagadas(ids: seq<int>, obs: Option<string>, ahora: string) returns (n: nat)
      requires db.Valid() && Conectado()
      modifies db`comisiones
      ensures db.Valid() && db.comisiones.next == old(db.comisiones.next)
      ensures db.comisiones.rows == TrasEstados(old(db.comisiones.rows), ids, Pagado, obs, ahora)
      ensures n == Cambios(old(db.comisiones.rows), ids, Pagado, obs, ahora) && n <= |ids|
    {
      n := 0;
      var i := 0;
      while i < |ids|
        invariant 0 <= i <= |ids|
        invariant db.Valid() && db.comisiones.next == old(db.comisiones.next)
        invariant db.comisiones.rows == TrasEstados(old(db.comisiones.rows), ids[..i], Pagado, obs, ahora)
        invariant n == Cambios(old(db.comisiones.rows), ids[..i], Pagado, obs, ahora)
      {
        TrasEstadosPaso(old(db.comisiones.rows), ids, i, Pagado, obs, ahora);
        ghost var antes := db.comisiones.rows;
        var ok := comisionModel.UpdateEstado(ids[i], Pagado, obs, ahora);
        assert ok == Cambia(antes, ids[i], Pagado, obs, ahora);
        if ok {
          n := n + 1;
        }
        i := i + 1;
      }
      assert ids[..|ids|] == ids;
    }

    /** The single-salesperson branch of `recalcularComisiones`, refusing a missing rule set. */
    method RecalcularVendedor(periodo: string, vendedorId: int, parametros: Option<Parametros>,
                              consulta: ConsultaResumen, ahora: string)
      returns (r: Result<Recalculo>)
      requires db.Valid() && Conectado()
      modifies db`comisiones
      ensures db.Valid()
      ensures parametros.None? ==> r == Err(ERROR_SIN_PARAMETROS) && db.comisiones == old(db.comisiones)
      ensures parametros.Some? ==>
                var e := Resultado(consulta, vendedorId, periodo, parametros.value);
                && (e.Err? ==> r == Err(e.message))
                && (e.Ok? ==> r == Ok(Individual(e.value)))
      ensures parametros.Some? ==> db.comisiones == TrasCalculo(old(db.comisiones), vendedorId, periodo, parametros.value, consulta, ahora)
    {
      if parametros.None? {
        return Err(ERROR_SIN_PARAMETROS);
      }
      var c := CalcularComisionVendedor(vendedorId, periodo, parametros.value, consulta, ahora);
      match c {
        case Err(msg) => r := Err(msg);
        case Ok(hecha) => r := Ok(Individual(hecha));
      }
    }

    /**
     * `recalcularComisiones`: validate the period (its error escapes), then
     * recalculate one salesperson when an id is given, else the whole
     * period. A single recalculation without parameters fails like the batch
     * does (see the findings for what the source does instead).
     */
    method RecalcularComisiones(periodo: string, vendedorId: Option<int>, mesActual: string,
                                parametros: Option<Parametros>, consulta: int -> ConsultaResumen, ahora: string)
      returns (r: Result<Recalculo>)
      requires db.Valid() && db.saved == None && Conectado()
      modifies db
      ensures db.Valid() && db.saved == None
      ensures ValidarPeriodo(periodo, mesActual).Err? ==>
        r == Err(ValidarPeriodo(periodo, mesActual).message) && db.Current() == old(db.Current())
      ensures ValidarPeriodo(periodo, mesActual).Ok? && IdIndicado(vendedorId) ==>
        && db.vendedores == old(db.vendedores) && db.metrics == old(db.metrics)
        && (parametros.None? ==> r == Err(ERROR_SIN_PARAMETROS) && db.Current() == old(db.Current()))
        && (parametros.Some? ==>
              var e := Resultado(consulta(vendedorId.value), vendedorId.value, periodo, parametros.value);
              && (e.Err? ==> r == Err(e.message))
              && (e.Ok? ==> r == Ok(Individual(e.value)))
              && db.comisiones == TrasCalculo(old(db.comisiones), vendedorId.value, periodo, parametros.value,
                                              consulta(vendedorId.value), ahora))
      ensures ValidarPeriodo(periodo, mesActual).Ok? && !IdIndicado(vendedorId) ==>
        && (parametros.None? ==> r == Err(ERROR_SIN_PARAMETROS) && db.Current() == old(db.Current()))
        && (parametros.Some? ==>
              && r == Ok(Lote(Esperados(VM.GetAll(old(db.vendedores), Some(ACTIVO)), periodo, consulta, parametros.value)))
              && db.comisiones == TrasLote(old(db.comisiones), VM.GetAll(old(db.vendedores), Some(ACTIVO)), periodo,
                                           parametros.value, consulta, ahora))
    {
      var v := ValidarPeriodo(periodo, mesActual);
      if v.Err? {
        return Err(v.message);
      }
      if IdIndicado(vendedorId) {
        r := RecalcularVendedor(periodo, vendedorId.value, parametros, consulta(vendedorId.value), ahora);
      } else {
        var b := CalcularComisionesPeriodo(periodo, parametros, consulta, ahora);
        match b {
          case Err(msg) => r := Err(msg);
          case Ok(res) => r := Ok(Lote(res));
        }
      }
    }
  }
}

/**
 * The `Comision` model: the row operations on `comisiones` (insert with
 * defaults, status change, period-wide approval) and the read-only queries
 * over it (lookup by salesperson and period, the filtered listing, the
 * period summary and the distribution by amount).
 */
module ComisionModel {
  import opened Common
  import opened Text
  import opened Tables
  import opened Sorting
  import opened Records

  // ------------------------------------------------------------ insertion

  /**
   * The `$data` array `create` is given. The keys `create` reads with `??`
   * are optional here; the others must be present.
   */
  datatype DatosComision = DatosComision(
    vendedorId: int,
    parametroId: int,
    periodo: string,
    totalVentas: real,
    totalDevoluciones: real,
    comisionBase: real,
    bonoAdicional: Option<real>,
    penalizacion: Option<real>,
    aplicaBono: Option<bool>,
    aplicaPenalizacion: Option<bool>,
    estado: Option<Estado>,
    observaciones: Option<string>)

  /** The row `create` inserts; `fecha_calculo` gets the column default, the current timestamp. */
  function NuevaFila(d: DatosComision, ahora: string): (c: ComisionRow)
    ensures c.vendedorId == d.vendedorId && c.parametroId == d.parametroId && c.periodo == d.periodo
    ensures c.totalVentas == d.totalVentas && c.totalDevoluciones == d.totalDevoluciones
    ensures c.comisionBase == d.comisionBase
    ensures c.bonoAdicional == (if d.bonoAdicional.Some? then d.bonoAdicional.value else 0.0)
    ensures c.penalizacion == (if d.penalizacion.Some? then d.penalizacion.value else 0.0)
    ensures c.aplicaBono <==> d.aplicaBono == Some(true)
    ensures c.aplicaPenalizacion <==> d.aplicaPenalizacion == Some(true)
    ensures c.estado == (if d.estado.Some? then d.estado.value else Calculado)
    ensures c.observaciones == d.observaciones
    ensures c.fechaCalculo == ahora && c.fechaAprobacion == None && c.fechaPago == None
  {
    ComisionRow(
      d.vendedorId, d.parametroId, d.periodo, d.totalVentas, d.totalDevoluciones,
      d.comisionBase, d.bonoAdicional.GetOr(0.0), d.penalizacion.GetOr(0.0),
      d.aplicaBono.GetOr(false), d.aplicaPenalizacion.GetOr(false),
      d.estado.GetOr(Calculado), ahora, None, None, d.observaciones)
  }

  // -------------------------------------------------------- status change

  /**
   * The row `updateEstado` writes: the new state and the new notes (NULL
   * when none are given) whatever the row held before, and the current
   * timestamp in `fecha_aprobacion` for `aprobado` or in `fecha_pago` for
   * `pagado`.
   */
  function ConEstado(c: ComisionRow, estado: Estado, observaciones: Option<string>, ahora: string): (r: ComisionRow)
    ensures r.estado == estado && r.observaciones == observaciones
    ensures r.fechaAprobacion == (if estado == Aprobado then Some(ahora) else c.fechaAprobacion)
    ensures r.fechaPago == (if estado == Pagado then Some(ahora) else c.fechaPago)
    ensures r.vendedorId == c.vendedorId && r.periodo == c.periodo && r.parametroId == c.parametroId
    ensures r.ComisionFinal() == c.ComisionFinal() && r.totalVentas == c.totalVentas
  {
    var r := c.(estado := estado, observaciones := observaciones);
    match estado
    case Aprobado => r.(fechaAprobacion := Some(ahora))
    case Pagado => r.(fechaPago := Some(ahora))
    case Calculado => r
  }

  /** No source-state check: a paid commission can be moved back to approved or calculated. */
  lemma PagadaVuelveAAprobada(c: ComisionRow, ahora: string)
    requires c.estado == Pagado
    ensures ConEstado(c, Aprobado, None, ahora).estado == Aprobado
    ensures ConEstado(c, Calculado, None, ahora).estado == Calculado
    ensures ConEstado(c, Calculado, None, ahora).fechaPago == c.fechaPago
  {
  }

  // ---------------------------------------------------- period approval

  predicate PorAprobar(c: ComisionRow, periodo: string) {
    c.periodo == periodo && c.estado == Calculado
  }

  function Aprobada(c: ComisionRow, ahora: string): ComisionRow {
    c.(estado := Aprobado, fechaAprobacion := Some(ahora))
  }

  /**
   * The table after `aprobarLote`: the calculated rows of the period become
   * approved with the approval timestamp; no other row changes, and no
   * calculated row of the period is left.
   */
  function AprobarEnLote(rows: map<int, ComisionRow>, periodo: string, ahora: string): (r: map<int, ComisionRow>)
    ensures r.Keys == rows.Keys
    ensures forall k :: k in rows ==> (r[k] != rows[k] <==> PorAprobar(rows[k], periodo))
    ensures forall k :: k in rows && PorAprobar(rows[k], periodo) ==>
      r[k].estado == Aprobado && r[k].fechaAprobacion == Some(ahora) && r[k].ComisionFinal() == rows[k].ComisionFinal()
    ensures forall k :: k in r ==> !PorAprobar(r[k], periodo)
  {
    map k | k in rows :: if PorAprobar(rows[k], periodo) then Aprobada(rows[k], ahora) else rows[k]
  }

  /** The keys `aprobarLote` changes, in primary-key order. */
  function PendientesDe(t: Table<ComisionRow>, periodo: string): (ids: seq<int>)
    requires t.Valid()
    ensures forall k :: k in ids <==> k in t.rows && PorAprobar(t.rows[k], periodo)
    ensures Increasing(ids)
  {
    var all := Ids(t);
    var ids := Filter(all, k => k in t.rows && PorAprobar(t.rows[k], periodo));
    FilterKeepsIncreasing(all, k => k in t.rows && PorAprobar(t.rows[k], periodo));
    ids
  }

  lemma {:induction false} FilterKeepsIncreasing(ids: seq<int>, f: int -> bool)
    requires Increasing(ids)
    ensures Increasing(Filter(ids, f))
  {
    if ids != [] {
      FilterKeepsIncreasing(ids[1..], f);
      var rest := Filter(ids[1..], f);
      forall j | 0 <= j < |rest| ensures ids[0] < rest[j] {
        assert rest[j] in ids[1..];
      }
    }
  }

  /** Running `aprobarLote` twice in a row changes nothing the second time. */
  lemma AprobarEnLoteIdempotente(rows: map<int, ComisionRow>, periodo: string, ahora: string, luego: string)
    ensures AprobarEnLote(AprobarEnLote(rows, periodo, ahora), periodo, luego) == AprobarEnLote(rows, periodo, ahora)
  {
    var once := AprobarEnLote(rows, periodo, ahora);
    var twice := AprobarEnLote(once, periodo, luego);
    assert forall k :: k in once ==> twice[k] == once[k];
  }

  // ---------------------------------------------------------- the class

  class Comision {
    const db: Database

    constructor (db: Database)
      ensures this.db == db
    {
      this.db := db;
    }

    /** `create`: insert a row with the defaults, return its new key. */
    method Create(d: DatosComision, ahora: string) returns (id: int)
      requires db.Valid()
      modifies db`comisiones
      ensures db.Valid()
      ensures id !in old(db.comisiones.rows) && id >= 1
      ensures db.comisiones.rows == old(db.comisiones.rows)[id := NuevaFila(d, ahora)]
      ensures (db.comisiones, id) == Insert(old(db.comisiones), NuevaFila(d, ahora))
    {
      var r := Insert(db.comisiones, NuevaFila(d, ahora));
      db.comisiones := r.0;
      id := r.1;
    }

    /**
     * `updateEstado`: rewrite the state and notes of row `id`, and report
     * whether the row changed (MySQL's `rowCount` counts changed rows).
     */
    method UpdateEstado(id: int, estado: Estado, observaciones: Option<string>, ahora: string) returns (afectada: bool)
      requires db.Valid()
      modifies db`comisiones
      ensures db.Valid() && db.comisiones.next == old(db.comisiones.next)
      ensures id in old(db.comisiones.rows) ==>
        db.comisiones.rows == old(db.comisiones.rows)[id := ConEstado(old(db.comisiones.rows)[id], estado, observaciones, ahora)]
      ensures id !in old(db.comisiones.rows) ==> db.comisiones.rows == old(db.comisiones.rows)
      ensures afectada <==> id in old(db.comisiones.rows) && db.comisiones.rows[id] != old(db.comisiones.rows)[id]
      ensures afectada <==> id in old(db.comisiones.rows) &&
                            ConEstado(old(db.comisiones.rows)[id], estado, observaciones, ahora) != old(db.comisiones.rows)[id]
    {
      afectada := false;
      if id in db.comisiones.rows {
        var antes := db.comisiones.rows[id];
        var despues := ConEstado(antes, estado, observaciones, ahora);
        db.comisiones := Table(db.comisiones.rows[id := despues], db.comisiones.next);
        afectada := despues != antes;
      }
    }

    /** `aprobarLote`: approve every calculated row of the period; return how many changed. */
    method AprobarLote(periodo: string, ahora: string) returns (n: nat)
      requires db.Valid()
      modifies db`comisiones
      ensures db.Valid() && db.comisiones.next == old(db.comisiones.next)
      ensures db.comisiones.rows == AprobarEnLote(old(db.comisiones.rows), periodo, ahora)
      ensures n == |PendientesDe(old(db.comisiones), periodo)|
    {
      n := |PendientesDe(db.comisiones, periodo)|;
      db.comisiones := Table(AprobarEnLote(db.comisiones.rows, periodo, ahora), db.comisiones.next);
    }
  }

  /** The approved count is the number of rows whose content changed. */
  lemma AprobarLoteCuentaCambios(t: Table<ComisionRow>, periodo: string, ahora: string, k: int)
    requires t.Valid() && k in t.rows
    ensures k in PendientesDe(t, periodo) <==> AprobarEnLote(t.rows, periodo, ahora)[k] != t.rows[k]
  {
  }

  // ------------------------------------------------ lookup by (vendedor, periodo)

  predicate De(c: ComisionRow, vendedorId: int, periodo: string) {
    c.vendedorId == vendedorId && c.periodo == periodo
  }

  /** The position of the first entry of that salesperson and period. */
  function PrimeraDe(es: seq<(int, ComisionRow)>, vendedorId: int, periodo: string): (r: Option<nat>)
    ensures r.Some? ==> r.value < |es| && De(es[r.value].1, vendedorId, periodo)
    ensures r.Some? ==> forall j :: 0 <= j < r.value ==> !De(es[j].1, vendedorId, periodo)
    ensures r.None? ==> forall j :: 0 <= j < |es| ==> !De(es[j].1, vendedorId, periodo)
  {
    if es == [] then None
    else if De(es[0].1, vendedorId, periodo) then Some(0)
    else
      var r := PrimeraDe(es[1..], vendedorId, periodo);
      if r.Some? then Some(r.value + 1) else None
  }

  /**
   * `getByVendedorPeriodo`: the row of that salesperson and period with its
   * key, or nothing when there is none. With several, the one a key-order
   * scan meets first.
   */
  function GetByVendedorPeriodo(t: Table<ComisionRow>, vendedorId: int, periodo: string): (r: Option<(int, ComisionRow)>)
    requires t.Valid()
    ensures r.Some? ==> r.value.0 in t.rows && t.rows[r.value.0] == r.value.1 && De(r.value.1, vendedorId, periodo)
    ensures r.Some? ==> forall k :: k in t.rows && k < r.value.0 ==> !De(t.rows[k], vendedorId, periodo)
    ensures r.None? ==> forall k :: k in t.rows ==> !De(t.rows[k], vendedorId, periodo)
  {
    var es := Entries(t);
    var i := PrimeraDe(es, vendedorId, periodo);
    if i.None? then
      assert forall k :: k in t.rows ==> !De(t.rows[k], vendedorId, periodo) by {
        forall k | k in t.rows ensures !De(t.rows[k], vendedorId, periodo) {
          var j :| 0 <= j < |es| && es[j] == (k, t.rows[k]);
        }
      }
      None
    else
      var n := i.value;
      assert forall k :: k in t.rows && k < es[n].0 ==> !De(t.rows[k], vendedorId, periodo) by {
        forall k | k in t.rows && k < es[n].0 ensures !De(t.rows[k], vendedorId, periodo) {
          var j :| 0 <= j < |es| && es[j] == (k, t.rows[k]);
        }
      }
      Some(es[n])
  }

  /** The uniqueness of (vendedor_id, periodo) in `comisiones`. */
  ghost predicate UnicaPorVendedorPeriodo(rows: map<int, ComisionRow>) {
    forall k1, k2 :: k1 in rows && k2 in rows && k1 != k2 ==>
      !De(rows[k2], rows[k1].vendedorId, rows[k1].periodo)
  }

  /** Under the uniqueness, the lookup finds the one row of the pair. */
  lemma UnicaEncontrada(t: Table<ComisionRow>, k: int)
    requires t.Valid() && UnicaPorVendedorPeriodo(t.rows) && k in t.rows
    ensures GetByVendedorPeriodo(t, t.rows[k].vendedorId, t.rows[k].periodo) == Some((k, t.rows[k]))
  {
  }

  /** Rewriting the row the lookup found with another row of the same pair: the lookup now finds the new row. */
  lemma ReemplazoEncontrada(t: Table<ComisionRow>, t2: Table<ComisionRow>, nueva: ComisionRow, vendedorId: int, periodo: string)
    requires t.Valid() && GetByVendedorPeriodo(t, vendedorId, periodo).Some?
    requires De(nueva, vendedorId, periodo)
    requires t2.Valid() && t2.rows == t.rows[GetByVendedorPeriodo(t, vendedorId, periodo).value.0 := nueva]
    ensures GetByVendedorPeriodo(t2, vendedorId, periodo) == Some((GetByVendedorPeriodo(t, vendedorId, periodo).value.0, nueva))
  {
    var k0 := GetByVendedorPeriodo(t, vendedorId, periodo).value.0;
    SinParAntes(t, t2, k0, vendedorId, periodo);
    PrimeraConPar(t2, k0, vendedorId, periodo);
  }

  /** A row of the pair with none of the pair at a smaller key is the one the lookup finds. */
  lemma PrimeraConPar(t: Table<ComisionRow>, k0: int, vendedorId: int, periodo: string)
    requires t.Valid() && k0 in t.rows && De(t.rows[k0], vendedorId, periodo)
    requires forall k :: k in t.rows && k < k0 ==> !De(t.rows[k], vendedorId, periodo)
    ensures GetByVendedorPeriodo(t, vendedorId, periodo) == Some((k0, t.rows[k0]))
  {
    var g := GetByVendedorPeriodo(t, vendedorId, periodo);
    assert g.Some?;
    assert g.value.0 <= k0;
  }

  /** Rewriting one key keeps the keys below it free of rows of the pair. */
  lemma SinParAntes(t: Table<ComisionRow>, t2: Table<ComisionRow>, k0: int, vendedorId: int, periodo: string)
    requires forall k :: k in t.rows && k < k0 ==> !De(t.rows[k], vendedorId, periodo)
    requires k0 in t2.rows && t2.rows == t.rows[k0 := t2.rows[k0]]
    ensures forall k :: k in t2.rows && k < k0 ==> !De(t2.rows[k], vendedorId, periodo)
  {
    forall k | k in t2.rows && k < k0 ensures !De(t2.rows[k], vendedorId, periodo) {
      assert t2.rows[k] == t.rows[k];
    }
  }

  /** Rewriting a row without changing its pair keeps (vendedor_id, periodo) unique. */
  lemma ReemplazoUnica(rows: map<int, ComisionRow>, k0: int, nueva: ComisionRow)
    requires UnicaPorVendedorPeriodo(rows) && k0 in rows
    requires De(nueva, rows[k0].vendedorId, rows[k0].periodo)
    ensures UnicaPorVendedorPeriodo(rows[k0 := nueva])
  {
    var r2 := rows[k0 := nueva];
    forall k1, k2 | k1 in r2 && k2 in r2 && k1 != k2
      ensures !De(r2[k2], r2[k1].vendedorId, r2[k1].periodo)
    {
      assert De(rows[k1], r2[k1].vendedorId, r2[k1].periodo) || k1 == k0;
      if k1 == k0 {
        assert r2[k2] == rows[k2];
        assert !De(rows[k2], rows[k0].vendedorId, rows[k0].periodo);
      } else if k2 == k0 {
        assert r2[k1] == rows[k1];
        assert !De(rows[k0], rows[k1].vendedorId, rows[k1].periodo);
      } else {
        assert r2[k1] == rows[k1] && r2[k2] == rows[k2];
      }
    }
  }

  /** Adding a row for a pair the lookup did not find: the lookup now finds it, and uniqueness is kept. */
  lemma AltaEncontrada(t: Table<ComisionRow>, t2: Table<ComisionRow>, id: int, nueva: ComisionRow, vendedorId: int, periodo: string)
    requires t.Valid() && GetByVendedorPeriodo(t, vendedorId, periodo).None?
    requires De(nueva, vendedorId, periodo) && id !in t.rows
    requires t2.Valid() && t2.rows == t.rows[id := nueva]
    ensures GetByVendedorPeriodo(t2, vendedorId, periodo) == Some((id, nueva))
  {
    assert forall k :: k in t2.rows && k != id ==> t2.rows[k] == t.rows[k];
    PrimeraConPar(t2, id, vendedorId, periodo);
  }

  /** Adding a row for a pair no row has keeps (vendedor_id, periodo) unique. */
  lemma AltaUnica(rows: map<int, ComisionRow>, id: int, nueva: ComisionRow)
    requires UnicaPorVendedorPeriodo(rows) && id !in rows
    requires forall k :: k in rows ==> !De(rows[k], nueva.vendedorId, nueva.periodo)
    ensures UnicaPorVendedorPeriodo(rows[id := nueva])
  {
    var r2 := rows[id := nueva];
    forall k1, k2 | k1 in r2 && k2 in r2 && k1 != k2
      ensures !De(r2[k2], r2[k1].vendedorId, r2[k1].periodo)
    {
      if k1 == id {
        assert r2[k2] == rows[k2];
      } else if k2 == id {
        assert r2[k1] == rows[k1];
        assert !De(rows[k1], nueva.vendedorId, nueva.periodo);
      } else {
        assert r2[k1] == rows[k1] && r2[k2] == rows[k2];
      }
    }
  }

  /**
   * `despues` differs from `antes` only in rows of period `periodo` whose
   * salesperson is in `xs`: no key goes away, and any other row is neither
   * changed nor added.
   */
  ghost predicate SoloPares(antes: map<int, ComisionRow>, despues: map<int, ComisionRow>, xs: set<int>, periodo: string) {
    && (forall k :: k in antes ==> k in despues)
    && (forall k :: k in antes && !(antes[k].periodo == periodo && antes[k].vendedorId in xs) ==> despues[k] == antes[k])
    && (forall k :: k in despues && !(despues[k].periodo == periodo && despues[k].vendedorId in xs) ==>
          k in antes && antes[k] == despues[k])
  }

  /** Setting one key to a row of the pair, over nothing or a row of the pair, touches only that pair. */
  lemma UnaFilaSoloPares(antes: map<int, ComisionRow>, k: int, nueva: ComisionRow, vendedorId: int, periodo: string)
    requires De(nueva, vendedorId, periodo) && (k in antes ==> De(antes[k], vendedorId, periodo))
    ensures SoloPares(antes, antes[k := nueva], {vendedorId}, periodo)
  {
  }

  lemma SoloParesTransitivo(a: map<int, ComisionRow>, b: map<int, ComisionRow>, c: map<int, ComisionRow>,
                            xs: set<int>, ys: set<int>, periodo: string)
    requires SoloPares(a, b, xs, periodo) && SoloPares(b, c, ys, periodo)
    ensures SoloPares(a, c, xs + ys, periodo)
  {
  }

  /** The lookup of a salesperson outside `xs` is the same in both tables. */
  lemma BusquedaIntacta(t: Table<ComisionRow>, t2: Table<ComisionRow>, xs: set<int>, vendedorId: int, periodo: string)
    requires t.Valid() && t2.Valid() && SoloPares(t.rows, t2.rows, xs, periodo) && vendedorId !in xs
    ensures GetByVendedorPeriodo(t2, vendedorId, periodo) == GetByVendedorPeriodo(t, vendedorId, periodo)
  {
    var g := GetByVendedorPeriodo(t, vendedorId, periodo);
    if g.Some? {
      var k0 := g.value.0;
      assert k0 in t2.rows && t2.rows[k0] == t.rows[k0];
      PrimeraConPar(t2, k0, vendedorId, periodo);
    }
  }

  // ------------------------------------------------------------- listing

  /** The optional filters of `getAll`; an absent one does not restrict. */
  datatype Filtros = Filtros(periodo: Option<string>, vendedorId: Option<int>, estado: Option<Estado>)

  predicate CumpleFiltros(c: ComisionRow, f: Filtros) {
    && (f.periodo.Some? ==> c.periodo == f.periodo.value)
    && (f.vendedorId.Some? ==> c.vendedorId == f.vendedorId.value)
    && (f.estado.Some? ==> c.estado == f.estado.value)
  }

  /** A row of `getAll`: the commission with its salesperson's code, name and e-mail and its plan's name. */
  datatype ComisionDetalle = ComisionDetalle(
    id: int,
    comision: ComisionRow,
    vendedorCodigo: string,
    vendedorNombre: string,
    vendedorEmail: Option<string>,
    planNombre: string)

  /** The row survives both inner joins and the filters. */
  predicate Visible(c: ComisionRow, vendedores: Table<VendedorRow>, planes: map<int, string>, f: Filtros) {
    CumpleFiltros(c, f) && c.vendedorId in vendedores.rows && c.parametroId in planes
  }

  function DetalleDe(id: int, c: ComisionRow, vendedores: Table<VendedorRow>, planes: map<int, string>): ComisionDetalle
    requires c.vendedorId in vendedores.rows && c.parametroId in planes
  {
    var v := vendedores.rows[c.vendedorId];
    ComisionDetalle(id, c, v.codigo, v.nombre, v.email, planes[c.parametroId])
  }

  /** The joined, filtered rows, before the sort. */
  function Unir(es: seq<(int, ComisionRow)>, vendedores: Table<VendedorRow>, planes: map<int, string>, f: Filtros): (r: seq<ComisionDetalle>)
    ensures forall d :: d in r ==>
      (d.id, d.comision) in es && Visible(d.comision, vendedores, planes, f) && d == DetalleDe(d.id, d.comision, vendedores, planes)
    ensures forall e :: e in es && Visible(e.1, vendedores, planes, f) ==> DetalleDe(e.0, e.1, vendedores, planes) in r
  {
    if es == [] then []
    else
      var rest := Unir(es[1..], vendedores, planes, f);
      if Visible(es[0].1, vendedores, planes, f) then [DetalleDe(es[0].0, es[0].1, vendedores, planes)] + rest else rest
  }

  function IdDetalle(d: ComisionDetalle): int { d.id }

  /** Joining entries with ascending keys never yields two rows with the same key. */
  lemma {:induction false} UnirDistinto(es: seq<(int, ComisionRow)>, vendedores: Table<VendedorRow>, planes: map<int, string>, f: Filtros)
    requires forall i, j :: 0 <= i < j < |es| ==> es[i].0 < es[j].0
    ensures DistinctBy(Unir(es, vendedores, planes, f), IdDetalle)
  {
    if es != [] {
      var tail := es[1..];
      UnirDistinto(tail, vendedores, planes, f);
      var rest := Unir(tail, vendedores, planes, f);
      if Visible(es[0].1, vendedores, planes, f) {
        var r := [DetalleDe(es[0].0, es[0].1, vendedores, planes)] + rest;
        forall i, j | 0 <= i < j < |r| ensures IdDetalle(r[i]) != IdDetalle(r[j]) {
          var d := r[j];
          assert d == rest[j - 1] && d in rest;
          var k :| 0 <= k < |tail| && tail[k] == (d.id, d.comision);
          assert es[k + 1] == tail[k];
          if i > 0 {
            assert r[i] == rest[i - 1];
          }
        }
      }
    }
  }

  /** `ORDER BY c.periodo DESC, c.comision_final DESC`: `a` may come before `b`. */
  predicate OrdenGetAll(a: ComisionDetalle, b: ComisionDetalle) {
    && LexLe(b.comision.periodo, a.comision.periodo)
    && (a.comision.periodo == b.comision.periodo ==> a.comision.ComisionFinal() >= b.comision.ComisionFinal())
  }

  lemma OrdenGetAllEsTotal()
    ensures TotalPreorder(OrdenGetAll)
  {
    forall a: ComisionDetalle, b: ComisionDetalle ensures OrdenGetAll(a, b) || OrdenGetAll(b, a) {
      LexLeTotal(a.comision.periodo, b.comision.periodo);
      if a.comision.periodo == b.comision.periodo {
        LexLeReflexive(a.comision.periodo);
      }
    }
    forall a: ComisionDetalle, b: ComisionDetalle, c: ComisionDetalle | OrdenGetAll(a, b) && OrdenGetAll(b, c)
      ensures OrdenGetAll(a, c)
    {
      LexLeTransitive(c.comision.periodo, b.comision.periodo, a.comision.periodo);
      if a.comision.periodo == c.comision.periodo {
        LexLeAntisymmetric(b.comision.periodo, a.comision.periodo);
      }
    }
  }

  /**
   * `getAll`: exactly the commissions that match every given filter and
   * whose salesperson and plan exist, each once, newest period first and,
   * within a period, the largest final amount first.
   */
  function GetAll(comisiones: Table<ComisionRow>, vendedores: Table<VendedorRow>, planes: map<int, string>, f: Filtros): (r: seq<ComisionDetalle>)
    requires comisiones.Valid()
    ensures forall d :: d in r <==>
      && d.id in comisiones.rows && d.comision == comisiones.rows[d.id]
      && Visible(d.comision, vendedores, planes, f)
      && d == DetalleDe(d.id, d.comision, vendedores, planes)
    ensures forall i, j :: 0 <= i < j < |r| ==> r[i].id != r[j].id
    ensures SortedBy(r, OrdenGetAll)
  {
    var u := Unir(Entries(comisiones), vendedores, planes, f);
    OrdenGetAllEsTotal();
    SortByIsSorted(u, OrdenGetAll);
    SortByMembers(u, OrdenGetAll);
    UnirDistinto(Entries(comisiones), vendedores, planes, f);
    SortByDistinct(u, OrdenGetAll, IdDetalle);
    SortBy(u, OrdenGetAll)
  }

  // ------------------------------------------------------ period summary

  /** `... FROM comisiones WHERE periodo = :periodo`, in primary-key order. */
  function EnPeriodo(t: Table<ComisionRow>, periodo: string): (rs: seq<ComisionRow>)
    requires t.Valid()
    ensures forall c :: c in rs <==> c in t.rows.Values && c.periodo == periodo
  {
    Filter(Rows(t), DelPeriodo(periodo))
  }

  function DelPeriodo(periodo: string): ComisionRow -> bool {
    (c: ComisionRow) => c.periodo == periodo
  }

  predicate EsCalculada(c: ComisionRow) { c.estado == Calculado }
  predicate EsAprobada(c: ComisionRow) { c.estado == Aprobado }
  predicate EsPagada(c: ComisionRow) { c.estado == Pagado }
  predicate ConBono(c: ComisionRow) { c.aplicaBono }
  predicate ConPenalizacion(c: ComisionRow) { c.aplicaPenalizacion }

  function TotalVentasDe(c: ComisionRow): real { c.totalVentas }
  function TotalDevolucionesDe(c: ComisionRow): real { c.totalDevoluciones }
  function VentasNetasDe(c: ComisionRow): real { c.VentasNetas() }
  function PorcentajeDe(c: ComisionRow): real { c.PorcentajeDevoluciones() }
  function BaseDe(c: ComisionRow): real { c.comisionBase }
  function BonoDe(c: ComisionRow): real { c.bonoAdicional }
  function PenalizacionDe(c: ComisionRow): real { c.penalizacion }
  function BaseMasBonoDe(c: ComisionRow): real { c.comisionBase + c.bonoAdicional }
  function FinalDe(c: ComisionRow): real { c.ComisionFinal() }

  /** The one row `getResumenPeriodo` fetches; SQL aggregates over no rows are NULL. */
  datatype Resumen = Resumen(
    totalVendedores: nat,
    totalVentas: Option<real>,
    totalDevoluciones: Option<real>,
    ventasNetas: Option<real>,
    promedioDevoluciones: Option<real>,
    totalComisionBase: Option<real>,
    totalBonos: Option<real>,
    totalPenalizaciones: Option<real>,
    totalComisiones: Option<real>,
    vendedoresConBono: Option<nat>,
    vendedoresConPenalizacion: Option<nat>,
    pendientesAprobacion: Option<nat>,
    aprobadas: Option<nat>,
    pagadas: Option<nat>)

  predicate OtroVendedorOPeriodo(a: ComisionRow, b: ComisionRow) {
    a.vendedorId != b.vendedorId || a.periodo != b.periodo
  }

  predicate OtroVendedor(a: ComisionRow, b: ComisionRow) {
    a.vendedorId != b.vendedorId
  }

  lemma {:induction false} VendedoresDistintos(rs: seq<ComisionRow>)
    requires Pairwise(rs, OtroVendedor)
    ensures |VendedoresDe(rs)| == |rs|
  {
    if rs != [] {
      var tail := rs[1..];
      assert Pairwise(tail, OtroVendedor) by {
        forall i, j | 0 <= i < j < |tail| ensures OtroVendedor(tail[i], tail[j]) {
          assert tail[i] == rs[i + 1] && tail[j] == rs[j + 1];
        }
      }
      VendedoresDistintos(tail);
      forall i | 0 <= i < |tail| ensures tail[i].vendedorId != rs[0].vendedorId {
        assert OtroVendedor(rs[0], rs[i + 1]);
      }
      VendedorAusente(tail, rs[0].vendedorId);
    }
  }

  /**
   * With one row per salesperson and period, the period's salesperson count
   * is its row count, so the bonus count never exceeds it.
   */
  lemma ConBonoAcotado(t: Table<ComisionRow>, periodo: string)
    requires t.Valid() && UnicaPorVendedorPeriodo(t.rows)
    ensures |VendedoresDe(EnPeriodo(t, periodo))| == |EnPeriodo(t, periodo)|
    ensures |Filter(EnPeriodo(t, periodo), ConBono)| <= |VendedoresDe(EnPeriodo(t, periodo))|
  {
    FilasDistintas(t);
    FilterKeepsPairwise(Rows(t), DelPeriodo(periodo), OtroVendedorOPeriodo);
    var rs := EnPeriodo(t, periodo);
    assert rs == Filter(Rows(t), DelPeriodo(periodo));
    forall i, j | 0 <= i < j < |rs| ensures OtroVendedor(rs[i], rs[j]) {
      assert OtroVendedorOPeriodo(rs[i], rs[j]);
      assert rs[i] in rs && rs[j] in rs;
    }
    assert Pairwise(rs, OtroVendedor);
    VendedoresDistintos(rs);
  }

  lemma FilasDistintas(t: Table<ComisionRow>)
    requires t.Valid() && UnicaPorVendedorPeriodo(t.rows)
    ensures Pairwise(Rows(t), OtroVendedorOPeriodo)
  {
    var all := Rows(t);
    var ids := Ids(t);
    forall i, j | 0 <= i < j < |all| ensures OtroVendedorOPeriodo(all[i], all[j]) {
      assert ids[i] < ids[j];
      assert ids[i] in t.rows && ids[j] in t.rows;
      assert !De(t.rows[ids[j]], t.rows[ids[i]].vendedorId, t.rows[ids[i]].periodo);
    }
  }

  /** Every row is in exactly one of the three states. */
  lemma {:induction false} EstadosParticionan(rs: seq<ComisionRow>)
    ensures CountOf(rs, EsCalculada) + CountOf(rs, EsAprobada) + CountOf(rs, EsPagada) == |rs|
  {
    if rs != [] {
      EstadosParticionan(rs[1..]);
    }
  }

  /** The salespeople (`COUNT(DISTINCT vendedor_id)`) of some rows. */
  function VendedoresDe(rs: seq<ComisionRow>): set<int> {
    if rs == [] then {} else {rs[0].vendedorId} + VendedoresDe(rs[1..])
  }

  lemma {:induction false} VendedorAusente(rs: seq<ComisionRow>, v: int)
    requires forall i :: 0 <= i < |rs| ==> rs[i].vendedorId != v
    ensures v !in VendedoresDe(rs)
  {
    if rs != [] {
      VendedorAusente(rs[1..], v);
    }
  }

  /**
   * `getResumenPeriodo`. Over a period with no rows every aggregate is NULL
   * and no salesperson is counted. Otherwise each state count and flag
   * count is the number of the period's rows with it (the three states add
   * up to the row count), each `SUM` column is that column summed over the
   * rows, the mean return ratio is their sum over the row count, net sales
   * are sales minus returns and the total commission is base plus bonuses
   * minus penalties.
   */
  function GetResumenPeriodo(t: Table<ComisionRow>, periodo: string): (r: Resumen)
    requires t.Valid()
    ensures r.totalVendedores == |VendedoresDe(EnPeriodo(t, periodo))|
    ensures EnPeriodo(t, periodo) == [] ==>
      && r.totalVendedores == 0
      && r.totalVentas.None? && r.totalDevoluciones.None? && r.ventasNetas.None? && r.promedioDevoluciones.None?
      && r.totalComisionBase.None? && r.totalBonos.None? && r.totalPenalizaciones.None?
      && r.totalComisiones.None? && r.vendedoresConBono.None? && r.vendedoresConPenalizacion.None?
      && r.pendientesAprobacion.None? && r.aprobadas.None? && r.pagadas.None?
    ensures var rs := EnPeriodo(t, periodo); rs != [] ==>
      && r.pendientesAprobacion == Some(|Filter(rs, EsCalculada)|)
      && r.aprobadas == Some(|Filter(rs, EsAprobada)|)
      && r.pagadas == Some(|Filter(rs, EsPagada)|)
      && r.pendientesAprobacion.value + r.aprobadas.value + r.pagadas.value == |rs|
    ensures var rs := EnPeriodo(t, periodo); rs != [] ==>
      && r.vendedoresConBono == Some(|Filter(rs, ConBono)|)
      && r.vendedoresConPenalizacion == Some(|Filter(rs, ConPenalizacion)|)
    ensures var rs := EnPeriodo(t, periodo); rs != [] ==>
      && r.totalVentas == Some(SumOf(rs, TotalVentasDe))
      && r.totalDevoluciones == Some(SumOf(rs, TotalDevolucionesDe))
      && r.ventasNetas == Some(SumOf(rs, VentasNetasDe))
      && r.ventasNetas.value == r.totalVentas.value - r.totalDevoluciones.value
      && r.promedioDevoluciones == Some(SumOf(rs, PorcentajeDe) / (|rs| as real))
    ensures var rs := EnPeriodo(t, periodo); rs != [] ==>
      && r.totalComisionBase == Some(SumOf(rs, BaseDe))
      && r.totalBonos == Some(SumOf(rs, BonoDe))
      && r.totalPenalizaciones == Some(SumOf(rs, PenalizacionDe))
      && r.totalComisiones == Some(SumOf(rs, FinalDe))
      && r.totalComisiones.value == r.totalComisionBase.value + r.totalBonos.value - r.totalPenalizaciones.value
  {
    var rs := EnPeriodo(t, periodo);
    EstadosParticionan(rs);
    SumOfDifference(rs, TotalVentasDe, TotalDevolucionesDe, VentasNetasDe);
    SumOfAddition(rs, BaseDe, BonoDe, BaseMasBonoDe);
    SumOfDifference(rs, BaseMasBonoDe, PenalizacionDe, FinalDe);
    assert rs == [] ==> VendedoresDe(rs) == {};
    Resumen(
      |VendedoresDe(rs)|,
      SqlSum(rs, TotalVentasDe), SqlSum(rs, TotalDevolucionesDe), SqlSum(rs, VentasNetasDe),
      SqlAvg(rs, PorcentajeDe),
      SqlSum(rs, BaseDe), SqlSum(rs, BonoDe), SqlSum(rs, PenalizacionDe), SqlSum(rs, FinalDe),
      SqlCount(rs, ConBono), SqlCount(rs, ConPenalizacion),
      SqlCount(rs, EsCalculada), SqlCount(rs, EsAprobada), SqlCount(rs, EsPagada))
  }

  // ------------------------------------------------------- distribution

  /** The five `CASE` labels of `getDistribucion`, in ascending order of amount. */
  datatype Rango = MenosDe1M | De1MA2M | De2MA3M | De3MA5M | Desde5M

  const RANGOS: seq<Rango> := [MenosDe1M, De1MA2M, De2MA3M, De3MA5M, Desde5M]

  function Etiqueta(b: Rango): string {
    match b
    case MenosDe1M => "< $1M"
    case De1MA2M => "$1M - $2M"
    case De2MA3M => "$2M - $3M"
    case De3MA5M => "$3M - $5M"
    case Desde5M => "> $5M"
  }

  /** The half-open interval each label stands for. */
  predicate EnRango(x: real, b: Rango) {
    match b
    case MenosDe1M => x < 1000000.0
    case De1MA2M => 1000000.0 <= x < 2000000.0
    case De2MA3M => 2000000.0 <= x < 3000000.0
    case De3MA5M => 3000000.0 <= x < 5000000.0
    case Desde5M => 5000000.0 <= x
  }

  function Posicion(b: Rango): nat {
    match b
    case MenosDe1M => 0
    case De1MA2M => 1
    case De2MA3M => 2
    case De3MA5M => 3
    case Desde5M => 4
  }

  /** The `CASE` chain: every amount falls in exactly one interval. */
  function RangoDe(x: real): (b: Rango)
    ensures EnRango(x, b)
    ensures forall b' :: EnRango(x, b') ==> b' == b
  {
    if x < 1000000.0 then MenosDe1M
    else if x < 2000000.0 then De1MA2M
    else if x < 3000000.0 then De2MA3M
    else if x < 5000000.0 then De3MA5M
    else Desde5M
  }

  /** A larger amount never lands in an earlier interval, so `ORDER BY MIN(comision_final)` is label order. */
  lemma RangoMonotono(x: real, y: real)
    requires x <= y
    ensures Posicion(RangoDe(x)) <= Posicion(RangoDe(y))
  {
  }

  /** `WHERE` the final amount falls under label `b`. */
  function DelRango(b: Rango): ComisionRow -> bool {
    (c: ComisionRow) => RangoDe(c.ComisionFinal()) == b
  }

  function Cantidad(rs: seq<ComisionRow>, b: Rango): nat {
    if rs == [] then 0 else (if RangoDe(rs[0].ComisionFinal()) == b then 1 else 0) + Cantidad(rs[1..], b)
  }

  function Total(rs: seq<ComisionRow>, b: Rango): real {
    if rs == [] then 0.0 else (if RangoDe(rs[0].ComisionFinal()) == b then rs[0].ComisionFinal() else 0.0) + Total(rs[1..], b)
  }

  /** One group of `GROUP BY rango`. */
  datatype Grupo = Grupo(rango: Rango, cantidad: nat, total: real)

  /** The non-empty groups among the labels `bs`, in the order of `bs`. */
  function Agrupar(rs: seq<ComisionRow>, bs: seq<Rango>): (r: seq<Grupo>)
    ensures forall i :: 0 <= i < |r| ==> r[i].rango in bs && r[i].cantidad > 0
    ensures forall i :: 0 <= i < |r| ==> r[i].cantidad == Cantidad(rs, r[i].rango) && r[i].total == Total(rs, r[i].rango)
    ensures SumaCantidades(r) == SumaPorRango(rs, bs)
  {
    if bs == [] then []
    else
      var rest := Agrupar(rs, bs[1..]);
      var n := Cantidad(rs, bs[0]);
      if n > 0 then [Grupo(bs[0], n, Total(rs, bs[0]))] + rest else rest
  }

  predicate Ascendentes(bs: seq<Rango>) {
    forall i, j :: 0 <= i < j < |bs| ==> Posicion(bs[i]) < Posicion(bs[j])
  }

  /** Grouping labels given in ascending order yields groups in ascending order. */
  lemma {:induction false} AgruparAscendente(rs: seq<ComisionRow>, bs: seq<Rango>)
    requires Ascendentes(bs)
    ensures Ascendentes(RangosDe(Agrupar(rs, bs)))
  {
    if bs != [] {
      var rest := Agrupar(rs, bs[1..]);
      AgruparAscendente(rs, bs[1..]);
      forall i | 0 <= i < |rest| ensures Posicion(bs[0]) < Posicion(rest[i].rango) {
        var k :| 0 <= k < |bs[1..]| && bs[1..][k] == rest[i].rango;
        assert bs[k + 1] == rest[i].rango;
      }
    }
  }

  function RangosDe(gs: seq<Grupo>): (r: seq<Rango>)
    ensures |r| == |gs| && forall i :: 0 <= i < |gs| ==> r[i] == gs[i].rango
  {
    if gs == [] then [] else [gs[0].rango] + RangosDe(gs[1..])
  }

  function SumaCantidades(gs: seq<Grupo>): nat {
    if gs == [] then 0 else gs[0].cantidad + SumaCantidades(gs[1..])
  }

  function SumaPorRango(rs: seq<ComisionRow>, bs: seq<Rango>): nat {
    if bs == [] then 0 else Cantidad(rs, bs[0]) + SumaPorRango(rs, bs[1..])
  }

  /** Counted over the five labels, every row is counted exactly once. */
  lemma {:induction false} CantidadesSuman(rs: seq<ComisionRow>)
    ensures Cantidad(rs, MenosDe1M) + Cantidad(rs, De1MA2M) + Cantidad(rs, De2MA3M)
          + Cantidad(rs, De3MA5M) + Cantidad(rs, Desde5M) == |rs|
  {
    if rs != [] {
      CantidadesSuman(rs[1..]);
    }
  }

  /**
   * `getDistribucion`: one group per non-empty interval, in ascending
   * order of amount, holding the count and the sum of the period's final
   * amounts in it; the counts add up to the number of rows of the period.
   */
  function GetDistribucion(t: Table<ComisionRow>, periodo: string): (r: seq<Grupo>)
    requires t.Valid()
    ensures forall i :: 0 <= i < |r| ==> r[i].cantidad > 0
    ensures forall i :: 0 <= i < |r| ==>
      r[i].cantidad == |Filter(EnPeriodo(t, periodo), DelRango(r[i].rango))|
    ensures forall i :: 0 <= i < |r| ==>
      r[i].total == SumOf(Filter(EnPeriodo(t, periodo), DelRango(r[i].rango)), FinalDe)
    ensures Ascendentes(RangosDe(r))
    ensures SumaCantidades(r) == |EnPeriodo(t, periodo)|
  {
    var rs := EnPeriodo(t, periodo);
    TodosLosRangos(rs);
    AgruparAscendente(rs, RANGOS);
    CantidadesSonFiltros(rs);
    TotalesSonSumas(rs);
    Agrupar(rs, RANGOS)
  }

  /** Counting over the five labels counts every row once. */
  lemma TodosLosRangos(rs: seq<ComisionRow>)
    ensures SumaPorRango(rs, RANGOS) == |rs|
  {
    CantidadesSuman(rs);
    assert SumaPorRango(rs, [Desde5M]) == Cantidad(rs, Desde5M);
    assert SumaPorRango(rs, [De3MA5M, Desde5M]) == Cantidad(rs, De3MA5M) + SumaPorRango(rs, [Desde5M]);
    assert SumaPorRango(rs, [De2MA3M, De3MA5M, Desde5M]) == Cantidad(rs, De2MA3M) + SumaPorRango(rs, [De3MA5M, Desde5M]);
    assert SumaPorRango(rs, [De1MA2M, De2MA3M, De3MA5M, Desde5M])
      == Cantidad(rs, De1MA2M) + SumaPorRango(rs, [De2MA3M, De3MA5M, Desde5M]);
  }

  lemma CantidadesSonFiltros(rs: seq<ComisionRow>)
    ensures forall b :: Cantidad(rs, b) == |Filter(rs, DelRango(b))|
  {
    forall b ensures Cantidad(rs, b) == |Filter(rs, DelRango(b))| {
      CantidadEsFiltro(rs, b);
    }
  }

  lemma {:induction false} CantidadEsFiltro(rs: seq<ComisionRow>, b: Rango)
    ensures Cantidad(rs, b) == |Filter(rs, DelRango(b))|
  {
    if rs != [] {
      CantidadEsFiltro(rs[1..], b);
    }
  }

  lemma TotalesSonSumas(rs: seq<ComisionRow>)
    ensures forall b :: Total(rs, b) == SumOf(Filter(rs, DelRango(b)), FinalDe)
  {
    forall b ensures Total(rs, b) == SumOf(Filter(rs, DelRango(b)), FinalDe) {
      TotalEsSuma(rs, b);
    }
  }

  /** The running total of a label is the `SUM(comision_final)` of the rows under it. */
  lemma {:induction false} TotalEsSuma(rs: seq<ComisionRow>, b: Rango)
    ensures Total(rs, b) == SumOf(Filter(rs, DelRango(b)), FinalDe)
  {
    if rs != [] {
      TotalEsSuma(rs[1..], b);
      if DelRango(b)(rs[0]) {
        assert Filter(rs, DelRango(b)) == [rs[0]] + Filter(rs[1..], DelRango(b));
        assert ([rs[0]] + Filter(rs[1..], DelRango(b)))[1..] == Filter(rs[1..], DelRango(b));
      }
    }
  }
}

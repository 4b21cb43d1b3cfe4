/**
 * The `Vendedor` model: creating, editing and soft-deleting salespeople,
 * and the read-only queries over `vendedores` and `ventas` (listing by
 * state, a salesperson's sales, the per-month sales summary, search).
 * String comparisons and `ORDER BY` use binary collation.
 */
module VendedorModel {
  import opened Common
  import opened Text
  import opened Tables
  import opened Sorting
  import opened Records

  // ------------------------------------------------------------ creation

  /** The `$data` array `create` is given; the keys read with `??` are optional. */
  datatype DatosVendedor = DatosVendedor(
    codigo: string,
    nombre: string,
    email: Option<string>,
    telefono: Option<string>,
    fechaIngreso: Option<string>,
    estado: Option<string>)

  /** The row `create` inserts; `hoy` is `date('Y-m-d')`. */
  function NuevoVendedor(d: DatosVendedor, hoy: string): (v: VendedorRow)
    ensures v.codigo == d.codigo && v.nombre == d.nombre
    ensures v.email == d.email && v.telefono == d.telefono
    ensures v.fechaIngreso == (if d.fechaIngreso.Some? then d.fechaIngreso.value else hoy)
    ensures v.estado == (if d.estado.Some? then d.estado.value else ACTIVO)
  {
    VendedorRow(d.codigo, d.nombre, d.email, d.telefono, d.fechaIngreso.GetOr(hoy), d.estado.GetOr(ACTIVO))
  }

  // -------------------------------------------------------------- update

  /** The columns `update` lets a caller set. */
  const CAMPOS: seq<string> := ["nombre", "email", "telefono", "estado"]

  /**
   * One entry of the `$data` array `update` is given: a key and its value,
   * `None` standing for PHP's `null`, which PDO binds as SQL NULL.
   */
  type Entrada = (string, Option<string>)

  predicate Permitido(e: Entrada) {
    e.0 in CAMPOS
  }

  /**
   * One `key = :key` assignment of the `SET` list. A NULL clears the
   * nullable `email` and `telefono`; `nombre` and `estado` are NOT NULL
   * columns, and there the model keeps the value the column had.
   */
  function Asignar(v: VendedorRow, e: Entrada): VendedorRow {
    if e.0 == "nombre" then v.(nombre := e.1.GetOr(v.nombre))
    else if e.0 == "email" then v.(email := e.1)
    else if e.0 == "telefono" then v.(telefono := e.1)
    else if e.0 == "estado" then v.(estado := e.1.GetOr(v.estado))
    else v
  }

  /** The value the last entry for `key` carries, if any entry has that key. */
  function Ultimo(sets: seq<Entrada>, key: string): (r: Option<Option<string>>)
    ensures r.None? <==> forall e :: e in sets ==> e.0 != key
    ensures r.Some? ==> (key, r.value) in sets
  {
    if sets == [] then None
    else if sets[|sets| - 1].0 == key then Some(sets[|sets| - 1].1)
    else
      var r := Ultimo(sets[..|sets| - 1], key);
      assert forall e :: e in sets[..|sets| - 1] ==> e in sets;
      assert forall e :: e in sets ==> e in sets[..|sets| - 1] || e == sets[|sets| - 1];
      r
  }

  /** The text of the last entry for `key` whose value is not NULL, if there is one. */
  function UltimoTexto(sets: seq<Entrada>, key: string): (r: Option<string>)
    ensures r.None? <==> forall e :: e in sets && e.0 == key ==> e.1.None?
    ensures r.Some? ==> (key, Some(r.value)) in sets
  {
    if sets == [] then None
    else if sets[|sets| - 1].0 == key && sets[|sets| - 1].1.Some? then sets[|sets| - 1].1
    else
      var r := UltimoTexto(sets[..|sets| - 1], key);
      assert forall e :: e in sets[..|sets| - 1] ==> e in sets;
      assert forall e :: e in sets ==> e in sets[..|sets| - 1] || e == sets[|sets| - 1];
      r
  }

  /**
   * The row after the `SET` list: each whitelisted column takes the value of
   * its entry (the last one, were a key repeated); the code and the hiring
   * date never change.
   */
  function Aplicar(v: VendedorRow, sets: seq<Entrada>): (r: VendedorRow)
    ensures r.codigo == v.codigo && r.fechaIngreso == v.fechaIngreso
    ensures r.nombre == UltimoTexto(sets, "nombre").GetOr(v.nombre)
    ensures r.email == (if Ultimo(sets, "email").Some? then Ultimo(sets, "email").value else v.email)
    ensures r.telefono == (if Ultimo(sets, "telefono").Some? then Ultimo(sets, "telefono").value else v.telefono)
    ensures r.estado == UltimoTexto(sets, "estado").GetOr(v.estado)
  {
    if sets == [] then v else Asignar(Aplicar(v, sets[..|sets| - 1]), sets[|sets| - 1])
  }

  // ---------------------------------------------------------- the class

  class Vendedor {
    const db: Database

    constructor (db: Database)
      ensures this.db == db
    {
      this.db := db;
    }

    /** `create`: insert a salesperson with the defaults, return the new key. */
    method Create(d: DatosVendedor, hoy: string) returns (id: int)
      requires db.Valid()
      modifies db`vendedores
      ensures db.Valid()
      ensures id !in old(db.vendedores.rows) && id >= 1
      ensures db.vendedores.rows == old(db.vendedores.rows)[id := NuevoVendedor(d, hoy)]
    {
      var r := Insert(db.vendedores, NuevoVendedor(d, hoy));
      db.vendedores := r.0;
      id := r.1;
    }

    /**
     * `update`: collect the whitelisted entries of `data` into the `SET`
     * list; with none, report false and touch nothing; otherwise rewrite row
     * `id` and report whether it changed.
     */
    method Update(id: int, data: seq<Entrada>) returns (ok: bool)
      requires db.Valid()
      modifies db`vendedores
      ensures db.Valid() && db.vendedores.next == old(db.vendedores.next)
      ensures Filter(data, Permitido) == [] ==> !ok && db.vendedores == old(db.vendedores)
      ensures id !in old(db.vendedores.rows) ==> !ok && db.vendedores == old(db.vendedores)
      ensures Filter(data, Permitido) != [] && id in old(db.vendedores.rows) ==>
        db.vendedores.rows == old(db.vendedores.rows)[id := Aplicar(old(db.vendedores.rows)[id], Filter(data, Permitido))]
      ensures ok <==> id in old(db.vendedores.rows) && db.vendedores.rows[id] != old(db.vendedores.rows)[id]
    {
      var campos: seq<Entrada> := [];
      var i := 0;
      while i < |data|
        invariant 0 <= i <= |data|
        invariant campos == Filter(data[..i], Permitido)
        invariant db.vendedores == old(db.vendedores)
      {
        FilterAppend(data[..i], data[i], Permitido);
        assert data[..i + 1] == data[..i] + [data[i]];
        if data[i].0 in CAMPOS {
          campos := campos + [data[i]];
        }
        i := i + 1;
      }
      assert data[..|data|] == data;
      if campos == [] {
        return false;
      }
      ok := false;
      if id in db.vendedores.rows {
        var antes := db.vendedores.rows[id];
        var despues := Aplicar(antes, campos);
        db.vendedores := Table(db.vendedores.rows[id := despues], db.vendedores.next);
        ok := despues != antes;
      }
    }

    /** `delete`: the soft delete; the row stays, marked inactive, every other column as it was. */
    method Delete(id: int) returns (ok: bool)
      requires db.Valid()
      modifies db`vendedores
      ensures db.Valid() && db.vendedores.next == old(db.vendedores.next)
      ensures db.vendedores.rows.Keys == old(db.vendedores.rows.Keys)
      ensures id in old(db.vendedores.rows) ==>
        db.vendedores.rows == old(db.vendedores.rows)[id := old(db.vendedores.rows)[id].(estado := INACTIVO)]
      ensures id !in old(db.vendedores.rows) ==> db.vendedores.rows == old(db.vendedores.rows)
      ensures ok <==> id in old(db.vendedores.rows) && old(db.vendedores.rows)[id].estado != INACTIVO
    {
      ok := false;
      if id in db.vendedores.rows {
        var antes := db.vendedores.rows[id];
        db.vendedores := Table(db.vendedores.rows[id := antes.(estado := INACTIVO)], db.vendedores.next);
        ok := antes.estado != INACTIVO;
      }
    }
  }

  // ------------------------------------------------------------ listing

  /** `ORDER BY nombre ASC`. */
  predicate PorNombre(a: (int, VendedorRow), b: (int, VendedorRow)) {
    LexLe(a.1.nombre, b.1.nombre)
  }

  lemma PorNombreEsTotal()
    ensures TotalPreorder(PorNombre)
  {
    forall a: (int, VendedorRow), b: (int, VendedorRow) ensures PorNombre(a, b) || PorNombre(b, a) {
      LexLeTotal(a.1.nombre, b.1.nombre);
    }
    forall a: (int, VendedorRow), b: (int, VendedorRow), c: (int, VendedorRow) | PorNombre(a, b) && PorNombre(b, c)
      ensures PorNombre(a, c)
    {
      LexLeTransitive(a.1.nombre, b.1.nombre, c.1.nombre);
    }
  }

  function IdDe(e: (int, VendedorRow)): int { e.0 }

  predicate ClaveMenor(a: (int, VendedorRow), b: (int, VendedorRow)) { a.0 < b.0 }

  /** A filtered scan sorted by name: the entries that pass `f`, each once, in name order. */
  function OrdenadosPorNombre(t: Table<VendedorRow>, f: ((int, VendedorRow)) -> bool): (r: seq<(int, VendedorRow)>)
    requires t.Valid()
    ensures forall e :: e in r <==> e.0 in t.rows && e.1 == t.rows[e.0] && f(e)
    ensures forall i, j :: 0 <= i < j < |r| ==> r[i].0 != r[j].0
    ensures SortedBy(r, PorNombre)
  {
    var es := Filter(Entries(t), f);
    PorNombreEsTotal();
    SortByIsSorted(es, PorNombre);
    SortByMembers(es, PorNombre);
    OrdenadosDistintos(t, f);
    SortBy(es, PorNombre)
  }

  /** Keys are strictly increasing in a scan, so the sorted selection repeats no key. */
  lemma OrdenadosDistintos(t: Table<VendedorRow>, f: ((int, VendedorRow)) -> bool)
    requires t.Valid()
    ensures DistinctBy(SortBy(Filter(Entries(t), f), PorNombre), IdDe)
  {
    assert Pairwise(Entries(t), ClaveMenor);
    FilterKeepsPairwise(Entries(t), f, ClaveMenor);
    SortByDistinct(Filter(Entries(t), f), PorNombre, IdDe);
  }

  /** `getAll`: the salespeople in state `estado` (all of them when it is null), each once, by name. */
  function GetAll(t: Table<VendedorRow>, estado: Option<string>): (r: seq<(int, VendedorRow)>)
    requires t.Valid()
    ensures forall e :: e in r <==>
      e.0 in t.rows && e.1 == t.rows[e.0] && (estado.Some? ==> e.1.estado == estado.value)
    ensures forall i, j :: 0 <= i < j < |r| ==> r[i].0 != r[j].0
    ensures SortedBy(r, PorNombre)
  {
    OrdenadosPorNombre(t, (e: (int, VendedorRow)) => estado.Some? ==> e.1.estado == estado.value)
  }

  /**
   * `search`: the active salespeople whose name, code or e-mail contains
   * the query (`LIKE '%q%'`; a NULL e-mail matches nothing), each once,
   * by name.
   */
  function Search(t: Table<VendedorRow>, q: string): (r: seq<(int, VendedorRow)>)
    requires t.Valid()
    ensures forall e :: e in r <==>
      && e.0 in t.rows && e.1 == t.rows[e.0] && e.1.estado == ACTIVO
      && (Contains(e.1.nombre, q) || Contains(e.1.codigo, q) || (e.1.email.Some? && Contains(e.1.email.value, q)))
    ensures forall i, j :: 0 <= i < j < |r| ==> r[i].0 != r[j].0
    ensures SortedBy(r, PorNombre)
  {
    OrdenadosPorNombre(t, (e: (int, VendedorRow)) =>
      e.1.estado == ACTIVO
      && (Contains(e.1.nombre, q) || Contains(e.1.codigo, q) || (e.1.email.Some? && Contains(e.1.email.value, q))))
  }

  /** Every active salesperson with the query in the name is found. */
  lemma SearchEncuentraPorNombre(t: Table<VendedorRow>, q: string, id: int)
    requires t.Valid() && id in t.rows
    requires t.rows[id].estado == ACTIVO && Contains(t.rows[id].nombre, q)
    ensures (id, t.rows[id]) in Search(t, q)
  {
  }

  // --------------------------------------------------------------- sales

  /** `DATE_FORMAT(fecha, '%Y-%m')` of a `Y-m-d` date. */
  function Mes(fecha: string): string {
    if |fecha| >= 7 then fecha[..7] else fecha
  }

  /** A row of `getVentas`: the sale with its product's name and reference. */
  datatype VentaDetalle = VentaDetalle(id: int, venta: VentaRow, productoNombre: string, productoReferencia: string)

  /** `ORDER BY v.fecha_venta DESC`. */
  predicate PorFechaDesc(a: VentaDetalle, b: VentaDetalle) {
    LexLe(b.venta.fechaVenta, a.venta.fechaVenta)
  }

  lemma PorFechaDescEsTotal()
    ensures TotalPreorder(PorFechaDesc)
  {
    forall a: VentaDetalle, b: VentaDetalle ensures PorFechaDesc(a, b) || PorFechaDesc(b, a) {
      LexLeTotal(a.venta.fechaVenta, b.venta.fechaVenta);
    }
    forall a: VentaDetalle, b: VentaDetalle, c: VentaDetalle | PorFechaDesc(a, b) && PorFechaDesc(b, c)
      ensures PorFechaDesc(a, c)
    {
      LexLeTransitive(c.venta.fechaVenta, b.venta.fechaVenta, a.venta.fechaVenta);
    }
  }

  /** The sale belongs to the salesperson and, when a (truthy) period is given, to that month. */
  predicate DelVendedor(v: VentaRow, vendedorId: int, periodo: Option<string>) {
    v.vendedorId == vendedorId && (periodo.Some? && !Falsy(periodo.value) ==> Mes(v.fechaVenta) == periodo.value)
  }

  function ConProducto(es: seq<(int, VentaRow)>, productos: Table<ProductoRow>, vendedorId: int, periodo: Option<string>): (r: seq<VentaDetalle>)
    ensures forall d :: d in r <==>
      && (d.id, d.venta) in es && DelVendedor(d.venta, vendedorId, periodo) && d.venta.productoId in productos.rows
      && d.productoNombre == productos.rows[d.venta.productoId].nombre
      && d.productoReferencia == productos.rows[d.venta.productoId].referencia
  {
    if es == [] then []
    else
      var rest := ConProducto(es[1..], productos, vendedorId, periodo);
      var (id, v) := es[0];
      if DelVendedor(v, vendedorId, periodo) && v.productoId in productos.rows then
        var p := productos.rows[v.productoId];
        [VentaDetalle(id, v, p.nombre, p.referencia)] + rest
      else rest
  }

  function IdVenta(d: VentaDetalle): int { d.id }

  /** Joining entries with ascending keys never yields two sales with the same key. */
  lemma {:induction false} ConProductoDistinto(es: seq<(int, VentaRow)>, productos: Table<ProductoRow>, vendedorId: int, periodo: Option<string>)
    requires forall i, j :: 0 <= i < j < |es| ==> es[i].0 < es[j].0
    ensures DistinctBy(ConProducto(es, productos, vendedorId, periodo), IdVenta)
  {
    if es != [] {
      var tail := es[1..];
      ConProductoDistinto(tail, productos, vendedorId, periodo);
      var rest := ConProducto(tail, productos, vendedorId, periodo);
      var r := ConProducto(es, productos, vendedorId, periodo);
      if r != rest {
        assert r == [r[0]] + rest && r[0].id == es[0].0;
        forall j | 0 <= j < |rest| ensures IdVenta(rest[j]) != IdVenta(r[0]) {
          var d := rest[j];
          assert d in rest;
          var k :| 0 <= k < |tail| && tail[k] == (d.id, d.venta);
          assert es[k + 1] == tail[k];
        }
        DistinctByCons(r[0], rest, IdVenta);
      }
    }
  }

  /**
   * `getVentas`: exactly the salesperson's sales whose product exists,
   * restricted to month `periodo` when one is given, each once, latest
   * first.
   */
  function GetVentas(ventas: Table<VentaRow>, productos: Table<ProductoRow>, vendedorId: int, periodo: Option<string>): (r: seq<VentaDetalle>)
    requires ventas.Valid()
    ensures forall d :: d in r <==>
      && d.id in ventas.rows && d.venta == ventas.rows[d.id]
      && DelVendedor(d.venta, vendedorId, periodo) && d.venta.productoId in productos.rows
      && d.productoNombre == productos.rows[d.venta.productoId].nombre
      && d.productoReferencia == productos.rows[d.venta.productoId].referencia
    ensures forall i, j :: 0 <= i < j < |r| ==> r[i].id != r[j].id
    ensures SortedBy(r, PorFechaDesc)
  {
    var u := ConProducto(Entries(ventas), productos, vendedorId, periodo);
    PorFechaDescEsTotal();
    SortByIsSorted(u, PorFechaDesc);
    SortByMembers(u, PorFechaDesc);
    ConProductoDistinto(Entries(ventas), productos, vendedorId, periodo);
    SortByDistinct(u, PorFechaDesc, IdVenta);
    SortBy(u, PorFechaDesc)
  }

  // ------------------------------------------------------- sales summary

  predicate EsVenta(v: VentaRow) { v.tipoOperacion == Venta }
  predicate EsDevolucion(v: VentaRow) { v.tipoOperacion == Devolucion }

  function Abs(x: real): real { if x < 0.0 then -x else x }

  function MontoVenta(v: VentaRow): real { if EsVenta(v) then v.valorTotal else 0.0 }
  function MontoDevolucion(v: VentaRow): real { if EsDevolucion(v) then Abs(v.valorTotal) else 0.0 }
  function MontoNeto(v: VentaRow): real { if EsVenta(v) then v.valorTotal else -Abs(v.valorTotal) }

  /** The row `getResumenVentas` fetches; `COUNT` is never NULL, `SUM` over no rows is. */
  datatype ResumenVentas = ResumenVentas(
    totalVentas: nat,
    totalDevoluciones: nat,
    montoVentas: Option<real>,
    montoDevoluciones: Option<real>,
    ventasNetas: Option<real>)

  /** The salesperson's rows of month `periodo`, in primary-key order. */
  function VentasDelMes(t: Table<VentaRow>, vendedorId: int, periodo: string): (rs: seq<VentaRow>)
    requires t.Valid()
    ensures forall v :: v in rs <==> v in t.rows.Values && v.vendedorId == vendedorId && Mes(v.fechaVenta) == periodo
  {
    Filter(Rows(t), (v: VentaRow) => v.vendedorId == vendedorId && Mes(v.fechaVenta) == periodo)
  }

  lemma {:induction false} TiposParticionan(rs: seq<VentaRow>)
    ensures CountOf(rs, EsVenta) + CountOf(rs, EsDevolucion) == |rs|
  {
    if rs != [] {
      TiposParticionan(rs[1..]);
    }
  }

  lemma {:induction false} SumaNoNegativa(rs: seq<VentaRow>)
    ensures SumOf(rs, MontoDevolucion) >= 0.0
  {
    if rs != [] {
      SumaNoNegativa(rs[1..]);
    }
  }

  /**
   * `getResumenVentas`: the number of sales and of returns of the
   * salesperson in the month (together every row), the sum of the sale
   * amounts, the sum of the absolute return amounts (never negative), and
   * net sales equal to sold minus returned; the sums are NULL when the
   * month has no rows.
   */
  function GetResumenVentas(t: Table<VentaRow>, vendedorId: int, periodo: string): (r: ResumenVentas)
    requires t.Valid()
    ensures var rs := VentasDelMes(t, vendedorId, periodo);
      && r.totalVentas == |Filter(rs, EsVenta)|
      && r.totalDevoluciones == |Filter(rs, EsDevolucion)|
      && r.totalVentas + r.totalDevoluciones == |rs|
      && (r.montoVentas.None? <==> rs == [])
      && (r.montoDevoluciones.None? <==> rs == [])
      && (r.ventasNetas.None? <==> rs == [])
      && (rs != [] ==>
            && r.montoVentas == Some(SumOf(rs, MontoVenta))
            && r.montoDevoluciones == Some(SumOf(rs, MontoDevolucion))
            && r.montoDevoluciones.value >= 0.0
            && r.ventasNetas.value == r.montoVentas.value - r.montoDevoluciones.value)
  {
    var rs := VentasDelMes(t, vendedorId, periodo);
    TiposParticionan(rs);
    SumaNoNegativa(rs);
    SumOfDifference(rs, MontoVenta, MontoDevolucion, MontoNeto);
    ResumenVentas(
      CountOf(rs, EsVenta), CountOf(rs, EsDevolucion),
      SqlSum(rs, MontoVenta), SqlSum(rs, MontoDevolucion), SqlSum(rs, MontoNeto))
  }
}

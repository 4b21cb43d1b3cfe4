/**
 * The rows of the tables the core reads and writes, and the database
 * connection that holds them. One `Database` object stands for the PDO
 * connection every model and service shares; a transaction is a snapshot of
 * the tables taken at `beginTransaction` and put back by `rollBack`.
 */
module Records {
  import opened Common
  import opened Tables
  import Calculo

  // ----------------------------------------------------------- comisiones

  /** `comisiones.estado`. */
  datatype Estado = Calculado | Aprobado | Pagado

  /**
   * A row of `comisiones`. The PHP code never writes `ventas_netas`,
   * `porcentaje_devoluciones` or `comision_final` but reads all three, so
   * they are generated columns here, derived with the service's formulas
   * (the return ratio is `Calculo.PorcentajeDevoluciones` itself).
   */
  datatype ComisionRow = ComisionRow(
    vendedorId: int,
    parametroId: int,
    periodo: string,
    totalVentas: real,
    totalDevoluciones: real,
    comisionBase: real,
    bonoAdicional: real,
    penalizacion: real,
    aplicaBono: bool,
    aplicaPenalizacion: bool,
    estado: Estado,
    fechaCalculo: string,
    fechaAprobacion: Option<string>,
    fechaPago: Option<string>,
    observaciones: Option<string>)
  {
    function VentasNetas(): real {
      totalVentas - totalDevoluciones
    }

    function PorcentajeDevoluciones(): real {
      Calculo.PorcentajeDevoluciones(totalVentas, totalDevoluciones)
    }

    function ComisionFinal(): real {
      comisionBase + bonoAdicional - penalizacion
    }
  }

  // ----------------------------------------------------------- vendedores

  const ACTIVO: string := "activo"
  const INACTIVO: string := "inactivo"

  /** A row of `vendedores`; `estado` is free text ("activo" / "inactivo" in practice). */
  datatype VendedorRow = VendedorRow(
    codigo: string,
    nombre: string,
    email: Option<string>,
    telefono: Option<string>,
    fechaIngreso: string,
    estado: string)

  // ------------------------------------------------------ productos, ventas

  datatype ProductoRow = ProductoRow(
    referencia: string,
    nombre: string,
    precioUnitario: real,
    categoria: string)

  /** `ventas.tipo_operacion`. */
  datatype TipoOperacion = Venta | Devolucion

  /** A row of `ventas`; `fechaVenta` is a `Y-m-d` date. */
  datatype VentaRow = VentaRow(
    vendedorId: int,
    productoId: int,
    fechaVenta: string,
    cantidad: int,
    valorUnitario: real,
    valorTotal: real,
    impuesto: real,
    tipoOperacion: TipoOperacion,
    motivoDevolucion: Option<string>,
    archivoOrigen: string)

  // ------------------------------------------------- dashboard, import log

  /** A row of `dashboard_metrics`, one per period (its unique key). */
  datatype MetricsRow = MetricsRow(
    totalVentas: Option<real>,
    totalComisiones: Option<real>,
    numeroVendedores: nat,
    vendedoresConBono: Option<nat>,
    porcentajeConBono: real,
    promedioDevoluciones: Option<real>,
    fechaActualizacion: string)

  /** `log_importaciones.estado`. */
  datatype EstadoLog = Procesando | Completado | ConError

  /** A row of `log_importaciones`; the counters stay NULL until the run's terminal update. */
  datatype LogRow = LogRow(
    archivo: string,
    tipo: string,
    estado: EstadoLog,
    usuario: string,
    procesados: Option<nat>,
    exitosos: Option<nat>,
    fallidos: Option<nat>,
    errores: Option<string>)

  // ----------------------------------------------------------- connection

  /** The row contents of every table at `beginTransaction`. */
  datatype Snapshot = Snapshot(
    vendedores: map<int, VendedorRow>,
    productos: map<int, ProductoRow>,
    ventas: map<int, VentaRow>,
    comisiones: map<int, ComisionRow>,
    metrics: map<string, MetricsRow>,
    logs: map<int, LogRow>)

  ghost predicate KeysBelow<T>(m: map<int, T>, next: int) {
    forall k :: k in m ==> 1 <= k < next
  }

  class Database {
    var vendedores: Table<VendedorRow>
    var productos: Table<ProductoRow>
    var ventas: Table<VentaRow>
    var comisiones: Table<ComisionRow>
    var metrics: map<string, MetricsRow>
    var logs: Table<LogRow>
    /** The snapshot of the open transaction, if one is open. */
    var saved: Option<Snapshot>

    ghost predicate Valid()
      reads this
    {
      && vendedores.Valid() && productos.Valid() && ventas.Valid()
      && comisiones.Valid() && logs.Valid()
      && (saved.Some? ==>
            && KeysBelow(saved.value.vendedores, vendedores.next)
            && KeysBelow(saved.value.productos, productos.next)
            && KeysBelow(saved.value.ventas, ventas.next)
            && KeysBelow(saved.value.comisiones, comisiones.next)
            && KeysBelow(saved.value.logs, logs.next))
    }

    function Current(): (s: Snapshot)
      reads this
      ensures s.comisiones == comisiones.rows && s.ventas == ventas.rows
    {
      Snapshot(vendedores.rows, productos.rows, ventas.rows, comisiones.rows, metrics, logs.rows)
    }

    constructor (vendedores: Table<VendedorRow>, productos: Table<ProductoRow>,
                 ventas: Table<VentaRow>, comisiones: Table<ComisionRow>,
                 metrics: map<string, MetricsRow>, logs: Table<LogRow>)
      requires vendedores.Valid() && productos.Valid() && ventas.Valid()
      requires comisiones.Valid() && logs.Valid()
      ensures Valid() && saved == None
      ensures this.vendedores == vendedores && this.productos == productos
      ensures this.ventas == ventas && this.comisiones == comisiones
      ensures this.metrics == metrics && this.logs == logs
    {
      this.vendedores := vendedores;
      this.productos := productos;
      this.ventas := ventas;
      this.comisiones := comisiones;
      this.metrics := metrics;
      this.logs := logs;
      this.saved := None;
    }

    /** PDO `beginTransaction` (PDO refuses a nested one). */
    method BeginTransaction()
      requires Valid() && saved == None
      modifies this`saved
      ensures Valid() && saved == Some(Current())
    {
      saved := Some(Current());
    }

    /** PDO `commit`: the changes stay, the snapshot is dropped. */
    method Commit()
      requires Valid() && saved.Some?
      modifies this`saved
      ensures Valid() && saved == None
    {
      saved := None;
    }

    /**
     * PDO `rollBack`: every table gets back the rows it had at
     * `beginTransaction`. AUTO_INCREMENT counters are not rolled back.
     */
    method Rollback()
      requires Valid() && saved.Some?
      modifies this
      ensures Valid() && saved == None
      ensures Current() == old(saved.value)
      ensures vendedores.next == old(vendedores.next) && productos.next == old(productos.next)
      ensures ventas.next == old(ventas.next) && comisiones.next == old(comisiones.next)
      ensures logs.next == old(logs.next)
    {
      var s := saved.value;
      vendedores := Table(s.vendedores, vendedores.next);
      productos := Table(s.productos, productos.next);
      ventas := Table(s.ventas, ventas.next);
      comisiones := Table(s.comisiones, comisiones.next);
      metrics := s.metrics;
      logs := Table(s.logs, logs.next);
      saved := None;
    }
  }
}

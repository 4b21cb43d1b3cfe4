/**
 * `ComisionController`: the guards of the commission endpoints and the CSV
 * export. Each endpoint turns a service outcome into a response; the export
 * writes a UTF-8 byte-order mark, a header line and one quoted line per row.
 */
module ComisionControlador {
  import opened Common
  import opened Text
  import opened Records
  import opened Calculo
  import opened ComisionServicio
  import VM = VendedorModel

  // ------------------------------------------------------------ responses

  /**
   * What an endpoint answers: `Response::json` with `success` and a
   * message, `Response::error` with the exception message, or
   * `Response::badRequest`.
   */
  datatype Respuesta = Exito(mensaje: string) | Error(mensaje: string) | PeticionInvalida(mensaje: string)

  const APROBADA: string := "Comisión aprobada exitosamente"
  const NO_APROBADA: string := "No se pudo aprobar la comisión"
  const PAGADA: string := "Comisión marcada como pagada"
  const NO_PAGADA: string := "No se pudo marcar la comisión como pagada"
  const SIN_IDS: string := "Debe proporcionar un array de IDs"
  const SIN_PERIODO: string := "Debe especificar un período"
  const CALCULADAS: string := "Comisiones calculadas exitosamente"
  const RECALCULADAS: string := "Comisiones recalculadas exitosamente"

  /** The `ids` member of a request body, when present and not null: an array of ids, or any other value. */
  datatype Entrada = Arreglo(ids: seq<int>) | Otro

  /** The message of a batch approval that changed `n` rows. */
  function MensajeLote(n: nat): string {
    NatToString(n) + " comisiones aprobadas exitosamente"
  }

  /** The number in the batch message reads back as the count of approved rows. */
  lemma MensajeLoteCuenta(n: nat)
    ensures MensajeLote(n)[..|NatToString(n)|] == NatToString(n)
    ensures DigitsValue(MensajeLote(n)[..|NatToString(n)|]) == n
  {
    NatToStringValue(n);
  }

  /** `calcular` without a period uses the current month, which always passes validation. */
  lemma MesActualAceptado(mesActual: string)
    requires FormatoPeriodo(mesActual)
    ensures ValidarPeriodo(mesActual, mesActual).Ok?
  {
    LexLeReflexive(mesActual);
  }

  // ---------------------------------------------------------- CSV fields

  /** `str_replace('"', '""', $valor)`. */
  function Escapar(v: string): (r: string)
    ensures |r| >= |v|
  {
    if v == [] then [] else (if v[0] == '"' then "\"\"" else [v[0]]) + Escapar(v[1..])
  }

  /** The export closure: the value between double quotes, inner quotes doubled (RFC 4180, section 2, rules 5 and 7). */
  function Entrecomillar(v: string): (r: string)
    ensures |r| >= 2 && r[0] == '"' && r[|r| - 1] == '"'
  {
    "\"" + Escapar(v) + "\""
  }

  /**
   * A reader for one quoted field, starting just after its opening quote:
   * `""` stands for `"`, a lone `"` closes the field. The value and what
   * follows the closing quote, or `None` when the quote is never closed.
   */
  function LeerCierre(s: string): (r: Option<(string, string)>)
    ensures r.Some? ==> |r.value.1| < |s|
    decreases |s|
  {
    if s == [] then None
    else if s[0] == '"' then
      if |s| >= 2 && s[1] == '"' then
        match LeerCierre(s[2..])
        case None => None
        case Some(p) => Some(("\"" + p.0, p.1))
      else Some(("", s[1..]))
    else
      match LeerCierre(s[1..])
      case None => None
      case Some(p) => Some(([s[0]] + p.0, p.1))
  }

  /** A line of comma-separated quoted fields read back into its values. */
  function LeerCampos(s: string): (r: Option<seq<string>>)
    decreases |s|
  {
    if s == [] || s[0] != '"' then None
    else
      match LeerCierre(s[1..])
      case None => None
      case Some(p) =>
        if p.1 == [] then Some([p.0])
        else if p.1[0] == ',' then
          match LeerCampos(p.1[1..])
          case None => None
          case Some(vs) => Some([p.0] + vs)
        else None
  }

  /** The escaped value followed by a closing quote reads back as the value, whatever follows that is not a quote. */
  lemma {:induction false} CierreRecupera(v: string, resto: string)
    requires resto == [] || resto[0] != '"'
    ensures LeerCierre(Escapar(v) + "\"" + resto) == Some((v, resto))
  {
    var s := Escapar(v) + "\"" + resto;
    if v == [] {
      assert s == "\"" + resto;
    } else if v[0] == '"' {
      assert s == "\"\"" + (Escapar(v[1..]) + "\"" + resto);
      assert s[2..] == Escapar(v[1..]) + "\"" + resto;
      CierreRecupera(v[1..], resto);
      assert v == "\"" + v[1..];
    } else {
      assert s == [v[0]] + (Escapar(v[1..]) + "\"" + resto);
      assert s[1..] == Escapar(v[1..]) + "\"" + resto;
      CierreRecupera(v[1..], resto);
      assert v == [v[0]] + v[1..];
    }
  }

  /** `array_map` of the quoting closure. */
  function Entrecomillados(vs: seq<string>): (r: seq<string>)
    ensures |r| == |vs| && forall i :: 0 <= i < |vs| ==> r[i] == Entrecomillar(vs[i])
  {
    if vs == [] then [] else [Entrecomillar(vs[0])] + Entrecomillados(vs[1..])
  }

  /** A single quoted field reads back as its value. */
  lemma CampoUnico(v: string)
    ensures LeerCampos(Entrecomillar(v)) == Some([v])
  {
    var s := Entrecomillar(v);
    assert s[1..] == Escapar(v) + "\"" + [];
    CierreRecupera(v, []);
  }

  /** A quoted field followed by a comma reads back as its value followed by whatever the rest reads as. */
  lemma CampoYResto(v: string, resto: string)
    ensures LeerCampos(Entrecomillar(v) + "," + resto)
            == match LeerCampos(resto) case None => None case Some(vs) => Some([v] + vs)
  {
    var s := Entrecomillar(v) + "," + resto;
    assert s[1..] == Escapar(v) + "\"" + ("," + resto);
    CierreRecupera(v, "," + resto);
    assert ("," + resto)[1..] == resto;
  }

  /** A data line without its line feed reads back as the values it was written from. */
  lemma {:induction false} LineaRecupera(vs: seq<string>)
    requires vs != []
    ensures LeerCampos(Join(Entrecomillados(vs), ",")) == Some(vs)
  {
    var partes := Entrecomillados(vs);
    if |vs| == 1 {
      CampoUnico(vs[0]);
      assert vs == [vs[0]];
    } else {
      assert partes[1..] == Entrecomillados(vs[1..]);
      LineaRecupera(vs[1..]);
      CampoYResto(vs[0], Join(partes[1..], ","));
      assert vs == [vs[0]] + vs[1..];
    }
  }

  // ------------------------------------------------------------ CSV body

  /** The UTF-8 byte-order mark `EF BB BF`, as the character it encodes. */
  const BOM: string := "\U{FEFF}"

  /** One exported row: its column names and values, in `SELECT` order. */
  type Fila = seq<(string, string)>

  /** `array_keys($fila)`. */
  function Claves(fila: Fila): (r: seq<string>)
    ensures |r| == |fila| && forall i :: 0 <= i < |fila| ==> r[i] == fila[i].0
  {
    if fila == [] then [] else [fila[0].0] + Claves(fila[1..])
  }

  /** `array_values($fila)`. */
  function Valores(fila: Fila): (r: seq<string>)
    ensures |r| == |fila| && forall i :: 0 <= i < |fila| ==> r[i] == fila[i].1
  {
    if fila == [] then [] else [fila[0].1] + Valores(fila[1..])
  }

  /** The line written for one row. */
  function LineaDeDatos(fila: Fila): string {
    Join(Entrecomillados(Valores(fila)), ",") + "\n"
  }

  /** The data lines of `datos`, in order. */
  function Lineas(datos: seq<Fila>): string {
    if datos == [] then "" else Lineas(datos[..|datos| - 1]) + LineaDeDatos(datos[|datos| - 1])
  }

  /** Writing one more row appends its line. */
  lemma LineasPaso(datos: seq<Fila>, i: nat)
    requires i < |datos|
    ensures Lineas(datos[..i + 1]) == Lineas(datos[..i]) + LineaDeDatos(datos[i])
  {
    assert datos[..i + 1][..i] == datos[..i];
  }

  /** The whole body `exportarCSV` writes. */
  function Csv(datos: seq<Fila>): (r: string)
    ensures BOM <= r
    ensures datos == [] ==> r == BOM
  {
    BOM + (if datos == [] then "" else Join(Claves(datos[0]), ",") + "\n" + Lineas(datos))
  }

  /** The lines of consecutive parts of the rows are consecutive parts of the text. */
  lemma {:induction false} LineasConcatenan(a: seq<Fila>, b: seq<Fila>)
    ensures Lineas(a + b) == Lineas(a) + Lineas(b)
  {
    if b != [] {
      var n := |b| - 1;
      LineasConcatenan(a, b[..n]);
      assert (a + b)[..|a + b| - 1] == a + b[..n];
    } else {
      assert a + b == a;
    }
  }

  /**
   * A row is written as its own line, between the lines of the rows before
   * it and those of the rows after it.
   */
  lemma FilaEnLineas(antes: seq<Fila>, fila: Fila, despues: seq<Fila>)
    ensures Lineas(antes + [fila] + despues) == Lineas(antes) + LineaDeDatos(fila) + Lineas(despues)
  {
    var conFila := antes + [fila];
    assert conFila[..|conFila| - 1] == antes;
    LineasConcatenan(conFila, despues);
  }

  /** The line of a row with at least one column, without its line feed, reads back as the row's values. */
  lemma LineaDeDatosRecupera(fila: Fila)
    requires fila != []
    ensures var linea := LineaDeDatos(fila);
            |linea| >= 1 && linea[|linea| - 1] == '\n'
            && LeerCampos(linea[..|linea| - 1]) == Some(Valores(fila))
  {
    var linea := LineaDeDatos(fila);
    assert linea[..|linea| - 1] == Join(Entrecomillados(Valores(fila)), ",");
    LineaRecupera(Valores(fila));
  }

  /** The response body stream. */
  class Cuerpo {
    var texto: string

    constructor ()
      ensures texto == ""
    {
      texto := "";
    }

    /** `$body->write($s)`. */
    method Escribir(s: string)
      modifies this
      ensures texto == old(texto) + s
    {
      texto := texto + s;
    }
  }

  /** Proof helper only: regroups the export's four appended pieces for the last step of `ExportarCSV`. */
  lemma Concatenar(a: string, b: string, c: string, d: string)
    ensures a + b + c + d == a + (b + (c + d))
  {
  }

  /** The `foreach` of the export: one line per row, in order. */
  method EscribirFilas(cuerpo: Cuerpo, datos: seq<Fila>)
    modifies cuerpo
    ensures cuerpo.texto == old(cuerpo.texto) + Lineas(datos)
  {
    for i := 0 to |datos|
      invariant cuerpo.texto == old(cuerpo.texto) + Lineas(datos[..i])
    {
      LineasPaso(datos, i);
      cuerpo.Escribir(LineaDeDatos(datos[i]));
    }
    assert datos[..|datos|] == datos;
  }

  /** The download name of the export of `periodo`. */
  function NombreArchivo(periodo: string): (r: string)
    ensures "comisiones_" <= r && |r| >= 4 && r[|r| - 4..] == ".csv"
  {
    "comisiones_" + periodo + ".csv"
  }

  // ---------------------------------------------------------- controller

  class ComisionController {
    const servicio: ComisionService

    /** The service's connection is the one every endpoint works on. */
    ghost predicate Valid()
      reads servicio.db
    {
      servicio.Conectado() && servicio.db.Valid()
    }

    constructor (db: Database)
      ensures servicio.db == db && servicio.Conectado()
    {
      servicio := new ComisionService(db);
    }

    /**
     * `calcular`: the period defaults to the current month; an invalid
     * period or a failed batch is an error response, anything else a
     * success.
     */
    method Calcular(periodo: Option<string>, mesActual: string, parametros: Option<Parametros>,
                    consulta: int -> ConsultaResumen, ahora: string)
      returns (r: Respuesta)
      requires Valid() && servicio.db.saved == None
      modifies servicio.db
      ensures Valid() && servicio.db.saved == None
      ensures var p := periodo.GetOr(mesActual);
              && (ValidarPeriodo(p, mesActual).Err? ==>
                    r == Error(ValidarPeriodo(p, mesActual).message)
                    && servicio.db.Current() == old(servicio.db.Current()))
              && (ValidarPeriodo(p, mesActual).Ok? && parametros.None? ==>
                    r == Error(ERROR_SIN_PARAMETROS) && servicio.db.Current() == old(servicio.db.Current()))
              && (ValidarPeriodo(p, mesActual).Ok? && parametros.Some? ==> r == Exito(CALCULADAS))
      ensures var p := periodo.GetOr(mesActual);
              ValidarPeriodo(p, mesActual).Ok? && parametros.Some? ==>
                servicio.db.comisiones == TrasLote(old(servicio.db.comisiones), VM.GetAll(old(servicio.db.vendedores), Some(ACTIVO)),
                                                   p, parametros.value, consulta, ahora)
    {
      var p := periodo.GetOr(mesActual);
      var v := ValidarPeriodo(p, mesActual);
      if v.Err? {
        return Error(v.message);
      }
      var b := servicio.CalcularComisionesPeriodo(p, parametros, consulta, ahora);
      match b {
        case Err(m) => r := Error(m);
        case Ok(_) => r := Exito(CALCULADAS);
      }
    }

    /** `aprobar`: approve one commission; no changed row is an error response. */
    method Aprobar(id: int, ahora: string) returns (r: Respuesta)
      requires Valid()
      modifies servicio.db`comisiones
      ensures Valid() && servicio.db.comisiones.next == old(servicio.db.comisiones.next)
      ensures servicio.db.comisiones.rows == TrasEstados(old(servicio.db.comisiones.rows), [id], Aprobado, None, ahora)
      ensures r == if Cambia(old(servicio.db.comisiones.rows), id, Aprobado, None, ahora)
                   then Exito(APROBADA) else Error(NO_APROBADA)
    {
      CambioUnico(servicio.db.comisiones.rows, id, Aprobado, None, ahora);
      var n := servicio.AprobarComisiones([id], ahora);
      if n == 0 {
        return Error(NO_APROBADA);
      }
      r := Exito(APROBADA);
    }

    /** `aprobarLote`: a missing or non-array `ids` is refused before any update; otherwise the count is reported. */
    method AprobarLote(ids: Option<Entrada>, ahora: string) returns (r: Respuesta)
      requires Valid()
      modifies servicio.db`comisiones
      ensures Valid() && servicio.db.comisiones.next == old(servicio.db.comisiones.next)
      ensures !(ids.Some? && ids.value.Arreglo?) ==>
                r == PeticionInvalida(SIN_IDS) && servicio.db.comisiones == old(servicio.db.comisiones)
      ensures ids.Some? && ids.value.Arreglo? ==>
                var rows := old(servicio.db.comisiones.rows);
                && servicio.db.comisiones.rows == TrasEstados(rows, ids.value.ids, Aprobado, None, ahora)
                && r == Exito(MensajeLote(Cambios(rows, ids.value.ids, Aprobado, None, ahora)))
    {
      if !(ids.Some? && ids.value.Arreglo?) {
        return PeticionInvalida(SIN_IDS);
      }
      var n := servicio.AprobarComisiones(ids.value.ids, ahora);
      r := Exito(MensajeLote(n));
    }

    /** `pagar`: mark one commission paid with the given notes; no changed row is an error response. */
    method Pagar(id: int, observaciones: Option<string>, ahora: string) returns (r: Respuesta)
      requires Valid()
      modifies servicio.db`comisiones
      ensures Valid() && servicio.db.comisiones.next == old(servicio.db.comisiones.next)
      ensures servicio.db.comisiones.rows == TrasEstados(old(servicio.db.comisiones.rows), [id], Pagado, observaciones, ahora)
      ensures r == if Cambia(old(servicio.db.comisiones.rows), id, Pagado, observaciones, ahora)
                   then Exito(PAGADA) else Error(NO_PAGADA)
    {
      CambioUnico(servicio.db.comisiones.rows, id, Pagado, observaciones, ahora);
      var n := servicio.MarcarComoPagadas([id], observaciones, ahora);
      if n == 0 {
        return Error(NO_PAGADA);
      }
      r := Exito(PAGADA);
    }

    /**
     * `recalcular`: a missing or falsy period is refused before anything
     * runs; otherwise the service's error, if any, is the response.
     */
    method Recalcular(periodo: Option<string>, vendedorId: Option<int>, mesActual: string,
                      parametros: Option<Parametros>, consulta: int -> ConsultaResumen, ahora: string)
      returns (r: Respuesta)
      requires Valid() && servicio.db.saved == None
      modifies servicio.db
      ensures Valid() && servicio.db.saved == None
      ensures periodo.None? || Falsy(periodo.value) ==>
                r == PeticionInvalida(SIN_PERIODO) && servicio.db.Current() == old(servicio.db.Current())
      ensures periodo.Some? && !Falsy(periodo.value) && ValidarPeriodo(periodo.value, mesActual).Err? ==>
                r == Error(ValidarPeriodo(periodo.value, mesActual).message)
                && servicio.db.Current() == old(servicio.db.Current())
      ensures periodo.Some? && !Falsy(periodo.value) && ValidarPeriodo(periodo.value, mesActual).Ok? && parametros.None? ==>
                r == Error(ERROR_SIN_PARAMETROS) && servicio.db.Current() == old(servicio.db.Current())
      ensures r.Exito? ==> r == Exito(RECALCULADAS) && parametros.Some?
      ensures periodo.Some? && !Falsy(periodo.value) && ValidarPeriodo(periodo.value, mesActual).Ok? && parametros.Some?
              && IdIndicado(vendedorId) ==>
                var e := Resultado(consulta(vendedorId.value), vendedorId.value, periodo.value, parametros.value);
                && (e.Err? ==> r == Error(e.message))
                && (e.Ok? ==> r == Exito(RECALCULADAS))
                && servicio.db.comisiones == TrasCalculo(old(servicio.db.comisiones), vendedorId.value, periodo.value,
                                                         parametros.value, consulta(vendedorId.value), ahora)
      ensures periodo.Some? && !Falsy(periodo.value) && ValidarPeriodo(periodo.value, mesActual).Ok? && parametros.Some?
              && !IdIndicado(vendedorId) ==>
                && r == Exito(RECALCULADAS)
                && servicio.db.comisiones == TrasLote(old(servicio.db.comisiones), VM.GetAll(old(servicio.db.vendedores), Some(ACTIVO)),
                                                      periodo.value, parametros.value, consulta, ahora)
    {
      if periodo.None? || Falsy(periodo.value) {
        return PeticionInvalida(SIN_PERIODO);
      }
      var b := servicio.RecalcularComisiones(periodo.value, vendedorId, mesActual, parametros, consulta, ahora);
      match b {
        case Err(m) => r := Error(m);
        case Ok(_) => r := Exito(RECALCULADAS);
      }
    }

    /**
     * `exportarCSV`: the CSV headers of the response, then the mark, and
     * with rows present the header line and one line per row.
     */
    method ExportarCSV(cuerpo: Cuerpo, datos: seq<Fila>, periodo: string)
      returns (cabeceras: seq<(string, string)>)
      modifies cuerpo
      ensures cuerpo.texto == old(cuerpo.texto) + Csv(datos)
      ensures cabeceras == [("Content-Type", "text/csv"),
                            ("Content-Disposition", "attachment; filename=\"" + NombreArchivo(periodo) + "\"")]
    {
      cabeceras := [("Content-Type", "text/csv"),
                    ("Content-Disposition", "attachment; filename=\"" + NombreArchivo(periodo) + "\"")];
      cuerpo.Escribir(BOM);
      if datos == [] {
        return;
      }
      var cabecera := Join(Claves(datos[0]), ",") + "\n";
      cuerpo.Escribir(cabecera);
      EscribirFilas(cuerpo, datos);
      Concatenar(old(cuerpo.texto), BOM, cabecera, Lineas(datos));
    }
  }
}

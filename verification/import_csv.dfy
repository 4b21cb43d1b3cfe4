/**
 * The CSV import script: the run-scoped caches that resolve a salesperson
 * name or a product reference to a key (creating the row on a miss), the
 * delimiter sniffer, the per-row validation and sign normalisation, the row
 * loop with its counters, and the terminal update of the import log.
 *
 * `fgetcsv` is not modelled: a file is given as its first raw line (for the
 * sniffer), its header fields and its data lines already split into fields.
 * PHP's numeric and date parsing are given as functions (`Conversores`).
 */
module ImportadorCsv {
  import opened Common
  import opened Text
  import opened Tables
  import opened Records

  // ------------------------------------------------------------ sniffing

  /** `substr_count($line, $delimiter)`. */
  function Cuenta(linea: string, d: string): nat
    requires d != []
  {
    CountOccurrences(linea, d)
  }

  ghost predicate NoVacios(cs: seq<string>) {
    forall i :: 0 <= i < |cs| ==> cs[i] != []
  }

  /**
   * The candidates as the script lists them: its `'\t'` is a single-quoted
   * PHP literal, so the third candidate is the two characters `\` and `t`.
   */
  const ESCRITOS: seq<string> := [",", ";", "\\t", "|"]

  /** The candidates with a real tab character, the delimiter the list means. */
  const CANDIDATOS: seq<string> := [",", ";", "\t", "|"]

  /** The index of the first candidate among `cs[..n]` whose count is largest. */
  function MejorEntre(cs: seq<string>, linea: string, n: nat): (k: nat)
    requires 1 <= n <= |cs| && NoVacios(cs)
    ensures k < n
  {
    if n == 1 then 0
    else
      var k := MejorEntre(cs, linea, n - 1);
      if Cuenta(linea, cs[n - 1]) > Cuenta(linea, cs[k]) then n - 1 else k
  }

  /** `array_search(max($counts), $counts)` over the candidates `cs`, in order. */
  function Delimitador(cs: seq<string>, linea: string): string
    requires cs != [] && NoVacios(cs)
  {
    cs[MejorEntre(cs, linea, |cs|)]
  }

  lemma {:induction false} MejorEntreEsPrimerMaximo(cs: seq<string>, linea: string, n: nat)
    requires 1 <= n <= |cs| && NoVacios(cs)
    ensures forall j :: 0 <= j < n ==> Cuenta(linea, cs[j]) <= Cuenta(linea, cs[MejorEntre(cs, linea, n)])
    ensures forall j :: 0 <= j < MejorEntre(cs, linea, n) ==>
              Cuenta(linea, cs[j]) < Cuenta(linea, cs[MejorEntre(cs, linea, n)])
  {
    if n > 1 {
      MejorEntreEsPrimerMaximo(cs, linea, n - 1);
    }
  }

  /**
   * The sniffed delimiter is a candidate, no candidate occurs more often,
   * and it comes no later than any candidate that occurs as often: ties go
   * to the earlier candidate.
   */
  lemma PrimerMaximo(cs: seq<string>, linea: string)
    requires cs != [] && NoVacios(cs)
    ensures Delimitador(cs, linea) in cs
    ensures forall j :: 0 <= j < |cs| ==> Cuenta(linea, cs[j]) <= Cuenta(linea, Delimitador(cs, linea))
    ensures forall j :: 0 <= j < |cs| && Cuenta(linea, cs[j]) == Cuenta(linea, Delimitador(cs, linea)) ==>
              Delimitador(cs, linea) in cs[..j + 1]
  {
    var k := MejorEntre(cs, linea, |cs|);
    MejorEntreEsPrimerMaximo(cs, linea, |cs|);
    forall j | 0 <= j < |cs| && Cuenta(linea, cs[j]) == Cuenta(linea, cs[k])
      ensures cs[k] in cs[..j + 1]
    {
      assert cs[..j + 1][k] == cs[k];
    }
  }

  /** When the first candidate occurs at least as often as every other, it is the one chosen. */
  lemma PrimeroSiEmpata(cs: seq<string>, linea: string)
    requires cs != [] && NoVacios(cs)
    requires forall j :: 0 <= j < |cs| ==> Cuenta(linea, cs[j]) <= Cuenta(linea, cs[0])
    ensures Delimitador(cs, linea) == cs[0]
  {
    PrimerMaximo(cs, linea);
    assert Cuenta(linea, cs[0]) == Cuenta(linea, Delimitador(cs, linea));
    assert cs[..1] == [cs[0]];
  }

  /** A line where none of the candidates occurs, or where `,` ties for the most, is read as comma-separated. */
  lemma ComaGanaEmpates(linea: string)
    requires forall j :: 0 <= j < |CANDIDATOS| ==> Cuenta(linea, CANDIDATOS[j]) <= Cuenta(linea, ",")
    ensures Delimitador(CANDIDATOS, linea) == ","
  {
    PrimeroSiEmpata(CANDIDATOS, linea);
  }

  /** A needle whose first character is nowhere in the line does not occur in it. */
  lemma NoOcurre(linea: string, needle: string)
    requires needle != [] && forall i :: 0 <= i < |linea| ==> linea[i] != needle[0]
    ensures Cuenta(linea, needle) == 0
  {
    assert forall i :: OccursAt(linea, needle, i) ==> linea[i] == needle[0];
    CountZeroIffAbsent(linea, needle);
  }

  /**
   * A line holding tabs and none of `,` `;` `|` or a backslash: the list as
   * written reads it as comma-separated, the intended list as tab-separated.
   */
  lemma TabuladorEnLinea(l: string, t: nat)
    requires t < |l| && l[t] == '\t'
    requires forall i :: 0 <= i < |l| ==> l[i] != ',' && l[i] != ';' && l[i] != '|' && l[i] != '\\'
    ensures Delimitador(ESCRITOS, l) == ","
    ensures Delimitador(CANDIDATOS, l) == "\t"
  {
    NoOcurre(l, ",");
    NoOcurre(l, ";");
    NoOcurre(l, "|");
    NoOcurre(l, "\\t");
    assert NoVacios(ESCRITOS) && NoVacios(CANDIDATOS);
    PrimeroSiEmpata(ESCRITOS, l);
    assert l[t..t + 1] == "\t";
    assert OccursAt(l, "\t", t);
    CountZeroIffAbsent(l, "\t");
    assert Cuenta(l, CANDIDATOS[2]) > 0;
    PrimerMaximo(CANDIDATOS, l);
  }

  /** The example that shows the as-written list misses tab-separated files. */
  const LINEA_TABULADA: string := "a\tb\tc"

  lemma TabuladorNoDetectado()
    ensures Delimitador(ESCRITOS, LINEA_TABULADA) == ","
    ensures Delimitador(CANDIDATOS, LINEA_TABULADA) == "\t"
  {
    TabuladorEnLinea(LINEA_TABULADA, 1);
  }

  // ------------------------------------------------------------- caches

  /** The cache key of a name or reference: `strtolower(trim($x))`. */
  function Clave(s: string): (k: string)
    ensures |k| <= |s|
  {
    Lower(Trim(s))
  }

  /** Case never decides whether a character is trimmed. */
  lemma RecorteIgnoraMayusculas(c: char)
    ensures IsTrimmed(LowerChar(c)) <==> IsTrimmed(c)
  {
  }

  lemma {:induction false} TrimLeftLower(s: string)
    ensures TrimLeft(Lower(s)) == Lower(TrimLeft(s))
    decreases |s|
  {
    if s != [] {
      RecorteIgnoraMayusculas(s[0]);
      assert Lower(s)[1..] == Lower(s[1..]);
      if IsTrimmed(s[0]) {
        TrimLeftLower(s[1..]);
      }
    }
  }

  lemma {:induction false} TrimRightLower(s: string)
    ensures TrimRight(Lower(s)) == Lower(TrimRight(s))
    decreases |s|
  {
    if s != [] {
      RecorteIgnoraMayusculas(s[|s| - 1]);
      assert Lower(s)[..|s| - 1] == Lower(s[..|s| - 1]);
      if IsTrimmed(s[|s| - 1]) {
        TrimRightLower(s[..|s| - 1]);
      }
    }
  }

  /**
   * Names that differ only in letter case or in surrounding white space
   * share a cache key: trimming or lower-casing first changes nothing.
   */
  lemma ClaveInsensible(s: string)
    ensures Clave(Trim(s)) == Clave(s)
    ensures Clave(Lower(s)) == Clave(s)
  {
    TrimIdempotent(s);
    TrimLeftLower(s);
    TrimRightLower(TrimLeft(s));
    LowerIdempotent(Trim(s));
  }

  function ClaveVendedor(v: VendedorRow): string {
    Clave(v.nombre)
  }

  function ClaveProducto(p: ProductoRow): string {
    Clave(p.referencia)
  }

  /**
   * The cache loop: each fetched row stores its key under the row's cache
   * key, a later row with the same cache key replacing an earlier one.
   */
  function Indexar<T>(es: seq<(int, T)>, clave: T -> string): map<string, int> {
    if es == [] then map[]
    else Indexar(es[..|es| - 1], clave)[clave(es[|es| - 1].1) := es[|es| - 1].0]
  }

  /** `cache` resolves exactly the cache keys of `rows`, each to a row with that key. */
  ghost predicate Indice<T>(cache: map<string, int>, rows: map<int, T>, clave: T -> string) {
    && (forall k :: k in cache ==> cache[k] in rows)
    && (forall k {:trigger clave(rows[cache[k]])} :: k in cache ==> clave(rows[cache[k]]) == k)
    && (forall id {:trigger clave(rows[id])} :: id in rows ==> clave(rows[id]) in cache)
  }

  lemma {:induction false} IndexarCorrecto<T>(es: seq<(int, T)>, rows: map<int, T>, clave: T -> string)
    requires forall i :: 0 <= i < |es| ==> es[i].0 in rows && rows[es[i].0] == es[i].1
    ensures forall k :: k in Indexar(es, clave) ==>
              Indexar(es, clave)[k] in rows && clave(rows[Indexar(es, clave)[k]]) == k
    ensures forall i :: 0 <= i < |es| ==> clave(es[i].1) in Indexar(es, clave)
  {
    if es != [] {
      IndexarCorrecto(es[..|es| - 1], rows, clave);
      forall i | 0 <= i < |es| - 1 ensures clave(es[i].1) in Indexar(es, clave) {
        assert es[..|es| - 1][i] == es[i];
      }
    }
  }

  /** Loading a whole table gives a cache that resolves exactly its keys. */
  lemma IndexarEsIndice<T>(t: Table<T>, clave: T -> string)
    requires t.Valid()
    ensures Indice(Indexar(Entries(t), clave), t.rows, clave)
  {
    var es := Entries(t);
    IndexarCorrecto(es, t.rows, clave);
    forall id | id in t.rows ensures clave(t.rows[id]) in Indexar(es, clave) {
      var i :| 0 <= i < |es| && es[i] == (id, t.rows[id]);
    }
  }

  /** A row added under a fresh key and cached under its own key keeps the cache exact. */
  lemma IndiceAlta<T>(cache: map<string, int>, rows: map<int, T>, clave: T -> string, id: int, fila: T)
    requires Indice(cache, rows, clave) && id !in rows
    ensures Indice(cache[clave(fila) := id], rows[id := fila], clave)
  {
    var c2 := cache[clave(fila) := id];
    var r2 := rows[id := fila];
    forall k | k in c2 ensures c2[k] in r2 && clave(r2[c2[k]]) == k {
      if k != clave(fila) {
        assert k in cache;
        assert clave(rows[cache[k]]) == k;
      }
    }
    forall i | i in r2 ensures clave(r2[i]) in c2 {
      if i != id {
        assert clave(rows[i]) in cache;
      }
    }
  }

  /** `b` keeps every entry of `a`. */
  ghost predicate Extiende<K, V>(a: map<K, V>, b: map<K, V>) {
    forall k :: k in a ==> k in b && b[k] == a[k]
  }

  /**
   * Resolve-or-create against a cache: a hit changes nothing; a miss inserts
   * `nuevo` once and caches the new key under `clave`.
   */
  ghost predicate Resuelto<T>(antesCache: map<string, int>, antes: Table<T>, cache: map<string, int>, t: Table<T>,
                             clave: string, nuevo: T)
    requires antes.Valid()
  {
    (cache, t) == Resolver(antesCache, antes, clave, nuevo)
  }

  /**
   * Resolve-or-create as a value: the cache and the table after looking up
   * `clave`, inserting `nuevo` on a miss. The cache only gains entries and
   * the table only gains rows.
   */
  function Resolver<T>(cache: map<string, int>, t: Table<T>, clave: string, nuevo: T): (r: (map<string, int>, Table<T>))
    requires t.Valid()
    ensures r.1.Valid() && clave in r.0 && t.next <= r.1.next
    ensures clave in cache <==> r == (cache, t)
    ensures Extiende(cache, r.0) && Extiende(t.rows, r.1.rows)
  {
    if clave in cache then (cache, t)
    else
      var ins := Insert(t, nuevo);
      (cache[clave := ins.1], ins.0)
  }

  // ---------------------------------------------------- generated values

  /** `'VEN' . str_pad($n + 11, 3, '0', STR_PAD_LEFT)`, `$n` the cache size. */
  function CodigoVendedor(n: nat): string {
    "VEN" + PadLeft(NatToString(n + 11), 3, '0')
  }

  lemma {:induction false} CerosALaIzquierda(z: nat, s: string)
    requires forall i :: 0 <= i < |s| ==> IsDigit(s[i])
    ensures forall i :: 0 <= i < |Repeat('0', z) + s| ==> IsDigit((Repeat('0', z) + s)[i])
    ensures DigitsValue(Repeat('0', z) + s) == DigitsValue(s)
    decreases |s|
  {
    var p := Repeat('0', z) + s;
    if s == [] {
      CerosValenCero(z);
      assert p == Repeat('0', z);
    } else {
      CerosALaIzquierda(z, s[..|s| - 1]);
      assert p[..|p| - 1] == Repeat('0', z) + s[..|s| - 1];
    }
  }

  lemma {:induction false} CerosValenCero(z: nat)
    ensures forall i :: 0 <= i < z ==> IsDigit(Repeat('0', z)[i])
    ensures DigitsValue(Repeat('0', z)) == 0
  {
    if z > 0 {
      CerosValenCero(z - 1);
      assert Repeat('0', z)[..z - 1] == Repeat('0', z - 1);
    }
  }

  /** A number below 10^(k+1) is written with at most k+1 digits, and conversely. */
  lemma {:induction false} Cifras(m: nat, k: nat)
    ensures |NatToString(m)| <= k + 1 <==> m < Potencia10(k + 1)
  {
    if m >= 10 {
      if k > 0 {
        Cifras(m / 10, k - 1);
        assert m / 10 < Potencia10(k) <==> m < Potencia10(k + 1);
      } else {
        assert |NatToString(m / 10)| >= 1;
      }
    }
  }

  function Potencia10(e: nat): (r: nat)
    ensures r >= 1
  {
    if e == 0 then 1 else 10 * Potencia10(e - 1)
  }

  /**
   * The digits of the generated code read back as the cache size plus 11:
   * the padding adds leading zeros and never truncates.
   */
  lemma CodigoLeeCuenta(n: nat)
    ensures var c := CodigoVendedor(n);
      && |c| >= 6 && c[..3] == "VEN"
      && (forall i :: 3 <= i < |c| ==> IsDigit(c[i]))
      && DigitsValue(c[3..]) == n + 11
  {
    var s := NatToString(n + 11);
    var p := PadLeft(s, 3, '0');
    var c := CodigoVendedor(n);
    assert c[3..] == p;
    NatToStringValue(n + 11);
    if |s| < 3 {
      assert p == Repeat('0', 3 - |s|) + s;
      CerosALaIzquierda(3 - |s|, s);
    }
  }

  /** The code has exactly six characters ("VEN" and three digits) while the cache holds fewer than 989 names. */
  lemma CodigoSeisCaracteres(n: nat)
    ensures |CodigoVendedor(n)| == 6 <==> n + 11 < 1000
  {
    Cifras(n + 11, 2);
    assert Potencia10(3) == 1000;
  }

  /** `strtolower(str_replace(' ', '.', $nombre)) . '@ventasplus.com'`. */
  function EmailVendedor(nombre: string): string {
    Lower(ReplaceChar(nombre, ' ', '.')) + "@ventasplus.com"
  }

  /** The generated address has no space or capital in its local part and ends with the company domain. */
  lemma EmailSinEspacios(nombre: string)
    ensures var e := EmailVendedor(nombre);
      && |e| == |nombre| + 15
      && e[|nombre|..] == "@ventasplus.com"
      && forall i :: 0 <= i < |nombre| ==> e[i] != ' ' && !('A' <= e[i] <= 'Z')
  {
  }

  /**
   * The salesperson an import creates: the generated code and address, the
   * given name, today as hiring date; `estado` takes the column default.
   */
  function NuevoVendedorCsv(nombre: string, enCache: nat, hoy: string): (v: VendedorRow)
    ensures ClaveVendedor(v) == Clave(nombre)
  {
    VendedorRow(CodigoVendedor(enCache), nombre, Some(EmailVendedor(nombre)), None, hoy, ACTIVO)
  }

  /** The product an import creates: an empty or "0" name falls back to "Producto <ref>". */
  function NuevoProductoCsv(referencia: string, nombre: string, precio: real): (p: ProductoRow)
    ensures ClaveProducto(p) == Clave(referencia)
    ensures p.nombre == (if Falsy(nombre) then "Producto " + referencia else nombre)
    ensures p.nombre != [] && p.categoria == "General"
  {
    ProductoRow(referencia, if Falsy(nombre) then "Producto " + referencia else nombre, precio, "General")
  }

  // ------------------------------------------------------------ one row

  /** The parsing the row step delegates to PHP: `intval`, `floatval`, `formatearFecha`, `date('Y-m-d')`. */
  datatype Conversores = Conversores(
    intval: string -> int,
    floatval: string -> real,
    formatearFecha: string -> string,
    hoy: string)

  /** `$row[$k] ?? $default`. */
  function Campo(fila: map<string, string>, k: string, default: string): string {
    if k in fila then fila[k] else default
  }

  function AbsInt(x: int): (r: int)
    ensures r >= 0 && (r == x || r == -x)
  {
    if x < 0 then -x else x
  }

  function AbsReal(x: real): (r: real)
    ensures r >= 0.0 && (r == x || r == -x)
  {
    if x < 0.0 then -x else x
  }

  /** `floatval(str_replace(',', '.', $x))`: a decimal comma is read as a point. */
  function Decimal(conv: Conversores, s: string): real {
    conv.floatval(ReplaceChar(s, ',', '.'))
  }

  /** `abs(floatval(str_replace(',', '.', $row['ValorUnitario'] ?? 0)))`. */
  function PrecioDeFila(fila: map<string, string>, conv: Conversores): (r: real)
    ensures r >= 0.0
  {
    if "ValorUnitario" in fila then AbsReal(Decimal(conv, fila["ValorUnitario"])) else 0.0
  }

  /** The operation kind: a return iff the trimmed, lower-cased `TipoOperacion` mentions "devol". */
  function Tipo(fila: map<string, string>): TipoOperacion {
    if "TipoOperacion" in fila && Contains(Lower(Trim(fila["TipoOperacion"])), "devol") then Devolucion
    else Venta
  }

  /** Returns carry their amounts as non-positive numbers; sales keep the parsed sign. */
  function ConSigno(t: TipoOperacion, x: real): (r: real)
    ensures AbsReal(r) == AbsReal(x)
    ensures t == Devolucion ==> r <= 0.0
    ensures t == Venta ==> r == x
  {
    if t == Devolucion then -AbsReal(x) else x
  }

  /** The `ventas` row inserted for a valid CSV row. */
  function NuevaVenta(fila: map<string, string>, conv: Conversores, vendedorId: int, productoId: int,
                      archivo: string): (v: VentaRow)
    ensures v.vendedorId == vendedorId && v.productoId == productoId && v.archivoOrigen == archivo
    ensures v.cantidad >= 0 && v.valorUnitario >= 0.0
    ensures v.tipoOperacion == Devolucion <==>
              "TipoOperacion" in fila && Contains(Lower(Trim(fila["TipoOperacion"])), "devol")
    ensures v.motivoDevolucion.Some? <==> v.tipoOperacion == Devolucion
    ensures v.tipoOperacion == Devolucion ==>
              v.valorTotal <= 0.0 && v.impuesto <= 0.0 &&
              v.motivoDevolucion == Some(Campo(fila, "Motivo", "Sin especificar"))
  {
    var t := Tipo(fila);
    VentaRow(
      vendedorId,
      productoId,
      conv.formatearFecha(Campo(fila, "FechaVenta", conv.hoy)),
      if "Cantidad" in fila then AbsInt(conv.intval(fila["Cantidad"])) else 1,
      PrecioDeFila(fila, conv),
      ConSigno(t, if "ValorVendido" in fila then Decimal(conv, fila["ValorVendido"]) else 0.0),
      ConSigno(t, if "Impuesto" in fila then Decimal(conv, fila["Impuesto"]) else 0.0),
      t,
      if t == Devolucion then Some(Campo(fila, "Motivo", "Sin especificar")) else None,
      archivo)
  }

  function NombreVendedor(fila: map<string, string>): string {
    Trim(Campo(fila, "Vendedor", ""))
  }

  function Referencia(fila: map<string, string>): string {
    Trim(Campo(fila, "Referencia", ""))
  }

  function NombreProducto(fila: map<string, string>): string {
    Trim(Campo(fila, "Producto", ""))
  }

  /** Why a row is rejected, if it is: `empty()` of the trimmed salesperson, then of the reference. */
  function FallaDeFila(fila: map<string, string>): (r: Option<string>)
    ensures r.None? <==> !Falsy(NombreVendedor(fila)) && !Falsy(Referencia(fila))
  {
    if Falsy(NombreVendedor(fila)) then Some("Vendedor vacío")
    else if Falsy(Referencia(fila)) then Some("Referencia de producto vacía")
    else None
  }

  /** The message a rejected row records. */
  function MensajeLinea(linea: nat, mensaje: string): string {
    "Línea " + NatToString(linea) + ": " + mensaje
  }

  // ------------------------------------------------------------ the file

  /** `array_combine($headers, $data)`: the header fields become the keys. */
  function Combinar(h: seq<string>, d: seq<string>): (fila: map<string, string>)
    requires |h| == |d|
  {
    if h == [] then map[] else Combinar(h[..|h| - 1], d[..|d| - 1])[h[|h| - 1] := d[|d| - 1]]
  }

  /** The keys of the combined row are exactly the header fields. */
  lemma {:induction false} CombinarClaves(h: seq<string>, d: seq<string>)
    requires |h| == |d|
    ensures forall k :: k in Combinar(h, d) <==> k in h
  {
    if h != [] {
      var n := |h| - 1;
      CombinarClaves(h[..n], d[..n]);
      assert h == h[..n] + [h[n]];
    }
  }

  /** A header that is not repeated later gets the value in its own column; a repeated one keeps the last. */
  lemma {:induction false} CombinarValor(h: seq<string>, d: seq<string>, i: nat)
    requires |h| == |d| && i < |h| && h[i] !in h[i + 1..]
    ensures h[i] in Combinar(h, d) && Combinar(h, d)[h[i]] == d[i]
  {
    var n := |h| - 1;
    if i < n {
      assert h[n] in h[i + 1..] by {
        assert h[i + 1..][n - i - 1] == h[n];
      }
      assert h[..n][i] == h[i];
      assert h[..n][i + 1..] == h[i + 1..n];
      assert h[i] !in h[..n][i + 1..];
      CombinarValor(h[..n], d[..n], i);
    }
  }

  /** `empty(array_filter($data))`: every field is falsy, as on a blank line. */
  predicate Vacia(datos: seq<string>) {
    forall i :: 0 <= i < |datos| ==> Falsy(datos[i])
  }

  /** The data lines of a file have as many fields as the header, blank lines aside. */
  ghost predicate Alineadas(h: seq<string>, lineas: seq<seq<string>>) {
    forall i :: 0 <= i < |lineas| && !Vacia(lineas[i]) ==> |lineas[i]| == |h|
  }

  /** Why a data line fails, if it is counted and fails. */
  function FallaLinea(h: seq<string>, datos: seq<string>): Option<string> {
    if Vacia(datos) || |datos| != |h| then None else FallaDeFila(Combinar(h, datos))
  }

  /** The number of data lines the loop counts as processed. */
  function NoVacias(lineas: seq<seq<string>>): (n: nat)
    ensures n <= |lineas|
  {
    if lineas == [] then 0
    else NoVacias(lineas[..|lineas| - 1]) + (if Vacia(lineas[|lineas| - 1]) then 0 else 1)
  }

  /**
   * The errors the loop records for the data lines `lineas`: one per failing
   * line, in order, numbered as in the file (the header is line 1).
   */
  function ErroresDe(h: seq<string>, lineas: seq<seq<string>>): seq<string> {
    if lineas == [] then []
    else
      var n := |lineas| - 1;
      ErroresDe(h, lineas[..n]) + ErrorDeLinea(h, lineas[n], n + 2)
  }

  lemma {:induction false} FallidasAcotadas(h: seq<string>, lineas: seq<seq<string>>)
    ensures |ErroresDe(h, lineas)| <= NoVacias(lineas)
  {
    if lineas != [] {
      FallidasAcotadas(h, lineas[..|lineas| - 1]);
    }
  }

  /** The errors recorded for one data line numbered `numero`. */
  function ErrorDeLinea(h: seq<string>, datos: seq<string>, numero: nat): (r: seq<string>)
    ensures |r| <= 1
    ensures r != [] ==> FallaLinea(h, datos).Some? && r[0] == MensajeLinea(numero, FallaLinea(h, datos).value)
  {
    match FallaLinea(h, datos)
    case Some(m) => [MensajeLinea(numero, m)]
    case None => []
  }

  /** `mensaje` is the error line `j` of `lineas` records: it failed, and the message gives its file line and reason. */
  ghost predicate Nombra(h: seq<string>, lineas: seq<seq<string>>, mensaje: string, j: int) {
    0 <= j < |lineas| && FallaLinea(h, lineas[j]).Some? &&
    mensaje == MensajeLinea(j + 2, FallaLinea(h, lineas[j]).value)
  }

  /** Every recorded error names the file line of a line that failed, with the reason it failed. */
  lemma {:induction false} ErroresNombranLinea(h: seq<string>, lineas: seq<seq<string>>, e: nat)
    requires e < |ErroresDe(h, lineas)|
    ensures exists j :: Nombra(h, lineas, ErroresDe(h, lineas)[e], j)
  {
    var n := |lineas| - 1;
    var pre := ErroresDe(h, lineas[..n]);
    var ult := ErrorDeLinea(h, lineas[n], n + 2);
    assert ErroresDe(h, lineas) == pre + ult;
    if e < |pre| {
      ErroresNombranLinea(h, lineas[..n], e);
      var j :| Nombra(h, lineas[..n], pre[e], j);
      assert lineas[..n][j] == lineas[j];
      assert Nombra(h, lineas, ErroresDe(h, lineas)[e], j);
    } else {
      assert Nombra(h, lineas, ErroresDe(h, lineas)[e], n);
    }
  }

  /** A file whose lines all name a salesperson and a reference records no error. */
  lemma {:induction false} SinFallasSinErrores(h: seq<string>, lineas: seq<seq<string>>)
    requires forall j :: 0 <= j < |lineas| ==> FallaLinea(h, lineas[j]).None?
    ensures ErroresDe(h, lineas) == []
  {
    if lineas != [] {
      SinFallasSinErrores(h, lineas[..|lineas| - 1]);
    }
  }

  /** What `fgetcsv` yields with a given delimiter: the header record (if any) and the data records after it. */
  datatype Lectura = Lectura(encabezados: Option<seq<string>>, lineas: seq<seq<string>>)

  /**
   * The file named on the command line, as `file_exists`, `fopen`, `fgets`
   * and `fgetcsv` see it: `leer(d)` is the file split into records with the
   * delimiter `d`.
   */
  datatype Archivo =
    | NoExiste
    | NoSeAbre
    | Legible(primeraLinea: string, leer: string -> Lectura)

  /** The records of a readable file split with the delimiter detected from its first line. */
  function LecturaDe(a: Archivo): Lectura
    requires a.Legible?
  {
    a.leer(Delimitador(CANDIDATOS, a.primeraLinea))
  }

  /** The data records of a readable file match its header, as `array_combine` needs. */
  ghost predicate BienFormado(a: Archivo) {
    a.Legible? ==>
      var l := LecturaDe(a);
      l.encabezados.Some? ==> Alineadas(l.encabezados.value, l.lineas)
  }

  function Recortados(hs: seq<string>): (r: seq<string>)
    ensures |r| == |hs| && forall i :: 0 <= i < |hs| ==> r[i] == Trim(hs[i])
  {
    if hs == [] then [] else [Trim(hs[0])] + Recortados(hs[1..])
  }

  // ----------------------------------------------------------- counters

  /** `$stats`. */
  datatype Estadisticas = Estadisticas(procesados: nat, exitosos: nat, fallidos: nat, errores: seq<string>)

  /** Every processed row either succeeded or failed, and every failure left an error. */
  predicate Cuadra(s: Estadisticas) {
    s.procesados == s.exitosos + s.fallidos && s.fallidos <= |s.errores|
  }

  /**
   * The counters `s` are those `s0` turns into after the data records
   * `lineas`: every non-blank record processed, every failure counted and
   * its error recorded in order, every other record a success.
   */
  ghost predicate Contado(s0: Estadisticas, s: Estadisticas, h: seq<string>, lineas: seq<seq<string>>) {
    && s.procesados == s0.procesados + NoVacias(lineas)
    && s.errores == s0.errores + ErroresDe(h, lineas)
    && s.fallidos == s0.fallidos + |ErroresDe(h, lineas)|
    && s.exitosos + |ErroresDe(h, lineas)| == s0.exitosos + NoVacias(lineas)
  }

  /** What one record numbered `numero` does to the counters; `ok` says whether it succeeded. */
  ghost predicate Paso(s: Estadisticas, s2: Estadisticas, h: seq<string>, datos: seq<string>, numero: nat, ok: bool) {
    && (ok <==> !Vacia(datos) && FallaLinea(h, datos).None?)
    && s2.procesados == s.procesados + (if Vacia(datos) then 0 else 1)
    && s2.exitosos == s.exitosos + (if ok then 1 else 0)
    && s2.fallidos == s.fallidos + |ErrorDeLinea(h, datos, numero)|
    && s2.errores == s.errores + ErrorDeLinea(h, datos, numero)
  }

  /** A blank record is skipped: no counter moves and the tables stay as they were. */
  lemma LineaVacia(t: Tablas, s: Estadisticas, h: seq<string>, datos: seq<string>, numero: nat, conv: Conversores, archivo: string)
    requires t.Valid() && Vacia(datos)
    ensures Paso(s, s, h, datos, numero, false)
    ensures TrasRegistro(t, Registro(h, datos), conv, archivo) == t
  {
  }

  /** A non-blank record counted as processed, then as a success or as a failure with its error, is one step. */
  lemma PasoDeRegistro(s: Estadisticas, s2: Estadisticas, h: seq<string>, datos: seq<string>, numero: nat, ok: bool)
    requires !Vacia(datos) && (ok <==> FallaLinea(h, datos).None?)
    requires ok ==> s2 == s.(procesados := s.procesados + 1, exitosos := s.exitosos + 1)
    requires !ok ==> s2 == s.(procesados := s.procesados + 1, fallidos := s.fallidos + 1,
                              errores := s.errores + [MensajeLinea(numero, FallaLinea(h, datos).value)])
    ensures Paso(s, s2, h, datos, numero, ok)
  {
  }

  /** One more record extends the count. */
  lemma ContadoPaso(s0: Estadisticas, s: Estadisticas, s2: Estadisticas, h: seq<string>, lineas: seq<seq<string>>,
                    i: nat, ok: bool)
    requires i < |lineas| && Contado(s0, s, h, lineas[..i]) && Paso(s, s2, h, lineas[i], i + 2, ok)
    ensures Contado(s0, s2, h, lineas[..i + 1])
  {
    assert lineas[..i + 1][..i] == lineas[..i];
  }

  /** A run's counters are consistent after any number of records if they were before. */
  lemma ContadoCuadra(s0: Estadisticas, s: Estadisticas, h: seq<string>, lineas: seq<seq<string>>)
    requires Cuadra(s0) && Contado(s0, s, h, lineas)
    ensures Cuadra(s)
  {
  }

  /** A failing data line always leaves an error. */
  lemma {:induction false} FallaDejaError(h: seq<string>, lineas: seq<seq<string>>, j: nat)
    requires j < |lineas| && FallaLinea(h, lineas[j]).Some?
    ensures ErroresDe(h, lineas) != []
  {
    var n := |lineas| - 1;
    assert ErroresDe(h, lineas) == ErroresDe(h, lineas[..n]) + ErrorDeLinea(h, lineas[n], n + 2);
    if j < n {
      assert lineas[..n][j] == lineas[j];
      FallaDejaError(h, lineas[..n], j);
    } else {
      assert ErrorDeLinea(h, lineas[j], n + 2) != [];
    }
  }

  /**
   * A run that starts from zero counters ends with the log row marked
   * completed exactly when no data line failed.
   */
  lemma EstadoFinal(r: LogRow, s: Estadisticas, h: seq<string>, lineas: seq<seq<string>>)
    requires Contado(Estadisticas(0, 0, 0, []), s, h, lineas)
    ensures Terminado(r, s).estado == Completado <==> forall j :: 0 <= j < |lineas| ==> FallaLinea(h, lineas[j]).None?
  {
    if forall j :: 0 <= j < |lineas| ==> FallaLinea(h, lineas[j]).None? {
      SinFallasSinErrores(h, lineas);
    } else {
      var j :| 0 <= j < |lineas| && FallaLinea(h, lineas[j]).Some?;
      FallaDejaError(h, lineas, j);
    }
  }

  /** `array_slice($errores, 0, $n)`. */
  function Primeros(errores: seq<string>, n: nat): (r: seq<string>)
    ensures |r| == (if |errores| < n then |errores| else n)
    ensures r == errores[..|r|]
  {
    if |errores| < n then errores else errores[..n]
  }

  /** The import log row as `finalizarImportacion` leaves it. */
  function Terminado(r: LogRow, s: Estadisticas): LogRow {
    r.(procesados := Some(s.procesados),
       exitosos := Some(s.exitosos),
       fallidos := Some(s.fallidos),
       errores := Some(Join(Primeros(s.errores, 100), "\n")),
       estado := if s.fallidos > 0 then ConError else Completado)
  }

  /** The log row `registrarInicioImportacion` inserts. */
  function InicioLog(archivo: string, tipo: string): LogRow {
    LogRow(archivo, tipo, Procesando, "CLI", None, None, None, None)
  }

  /** With consistent counters a run is marked completed exactly when every processed row succeeded. */
  lemma CompletadoSiTodasExitosas(r: LogRow, s: Estadisticas)
    requires Cuadra(s)
    ensures Terminado(r, s).estado == Completado <==> s.exitosos == s.procesados
    ensures Terminado(r, s).estado == ConError ==> s.errores != []
  {
  }

  lemma {:induction false} OcurreTrasPrefijo(a: string, b: string, needle: string, j: int)
    requires OccursAt(b, needle, j)
    ensures OccursAt(a + b, needle, |a| + j)
  {
    assert (a + b)[|a| + j..|a| + j + |needle|] == b[j..j + |needle|];
  }

  /** Each of the joined messages can be found in the joined text. */
  lemma {:induction false} JoinContiene(xs: seq<string>, sep: string, i: nat)
    requires i < |xs|
    ensures Contains(Join(xs, sep), xs[i])
  {
    if |xs| == 1 {
      assert OccursAt(Join(xs, sep), xs[0], 0);
    } else if i == 0 {
      assert Join(xs, sep)[..|xs[0]|] == xs[0];
      assert OccursAt(Join(xs, sep), xs[0], 0);
    } else {
      JoinContiene(xs[1..], sep, i - 1);
      var j :| OccursAt(Join(xs[1..], sep), xs[i], j);
      OcurreTrasPrefijo(xs[0] + sep, Join(xs[1..], sep), xs[i], j);
      assert Join(xs, sep) == (xs[0] + sep) + Join(xs[1..], sep);
    }
  }

  /** Each of the first hundred errors appears in the text the terminal log update stores. */
  lemma ErroresGuardados(r: LogRow, s: Estadisticas, e: nat)
    requires e < |s.errores| && e < 100
    ensures Contains(Terminado(r, s).errores.value, s.errores[e])
  {
    var p := Primeros(s.errores, 100);
    assert p[e] == s.errores[e];
    JoinContiene(p, "\n", e);
  }

  // ------------------------------------------------------------ the class

  class CsvImporter {
    const db: Database
    var logId: int
    var vendedoresCache: map<string, int>
    var productosCache: map<string, int>
    var stats: Estadisticas

    /** The caches resolve exactly the names and references stored in the database. */
    ghost predicate Valid()
      reads this`vendedoresCache, this`productosCache, db
    {
      && db.Valid()
      && Indice(vendedoresCache, db.vendedores.rows, ClaveVendedor)
      && Indice(productosCache, db.productos.rows, ClaveProducto)
    }

    /** The three tables the import writes and the two caches, as values. */
    ghost function Estado(): Tablas
      reads this`vendedoresCache, this`productosCache, db`vendedores, db`productos, db`ventas
    {
      Tablas(db.vendedores, db.productos, db.ventas, vendedoresCache, productosCache)
    }

    /** `__construct`: zero counters and the caches loaded from the database. */
    constructor (db: Database)
      requires db.Valid()
      ensures this.db == db && Valid()
      ensures stats == Estadisticas(0, 0, 0, [])
      ensures vendedoresCache == Indexar(Entries(db.vendedores), ClaveVendedor)
      ensures productosCache == Indexar(Entries(db.productos), ClaveProducto)
    {
      this.db := db;
      logId := 0;
      vendedoresCache := map[];
      productosCache := map[];
      stats := Estadisticas(0, 0, 0, []);
      new;
      LoadCaches();
    }

    /** `loadCaches`: one pass over each table in key order. */
    method LoadCaches()
      requires db.Valid()
      modifies this`vendedoresCache, this`productosCache
      ensures Valid()
      ensures vendedoresCache == Indexar(Entries(db.vendedores), ClaveVendedor)
      ensures productosCache == Indexar(Entries(db.productos), ClaveProducto)
    {
      vendedoresCache := CargarIndice(Entries(db.vendedores), ClaveVendedor);
      productosCache := CargarIndice(Entries(db.productos), ClaveProducto);
      IndexarEsIndice(db.vendedores, ClaveVendedor);
      IndexarEsIndice(db.productos, ClaveProducto);
    }

    /** `detectarDelimitador`: count each candidate, take the maximum, return the first candidate reaching it. */
    method DetectarDelimitador(linea: string) returns (d: string)
      ensures d == Delimitador(CANDIDATOS, linea)
    {
      assert NoVacios(CANDIDATOS);
      d := PrimerMasFrecuente(CANDIDATOS, linea);
    }

    /** `registrarError`: append the message. */
    method RegistrarError(mensaje: string)
      modifies this`stats
      ensures stats == old(stats).(errores := old(stats.errores) + [mensaje])
    {
      stats := stats.(errores := stats.errores + [mensaje]);
    }

    /**
     * `obtenerOCrearVendedor`: a cache hit returns the cached key; a miss
     * inserts the salesperson with the generated code and address and caches
     * the new key, so a later name with the same cache key gets the same one.
     */
    method ObtenerOCrearVendedor(nombre: string, hoy: string) returns (id: int)
      requires Valid()
      modifies this`vendedoresCache, db`vendedores
      ensures Valid() && db.saved == old(db.saved)
      ensures Resuelto(old(vendedoresCache), old(db.vendedores), vendedoresCache, db.vendedores,
                       Clave(nombre), NuevoVendedorCsv(nombre, |old(vendedoresCache)|, hoy))
      ensures Clave(nombre) in vendedoresCache && id == vendedoresCache[Clave(nombre)]
      ensures stats == old(stats) && productosCache == old(productosCache)
      ensures db.productos == old(db.productos) && db.ventas == old(db.ventas)
      ensures Estado() == ConVendedor(old(Estado()), nombre, hoy)
    {
      var clave := Clave(nombre);
      if clave in vendedoresCache {
        return vendedoresCache[clave];
      }
      var fila := NuevoVendedorCsv(nombre, |vendedoresCache|, hoy);
      var ins := Insert(db.vendedores, fila);
      IndiceAlta(vendedoresCache, db.vendedores.rows, ClaveVendedor, ins.1, fila);
      db.vendedores := ins.0;
      id := ins.1;
      vendedoresCache := vendedoresCache[clave := id];
    }

    /** `obtenerOCrearProducto`: the same resolve-or-create, keyed by reference. */
    method ObtenerOCrearProducto(referencia: string, nombre: string, fila: map<string, string>, conv: Conversores)
      returns (id: int)
      requires Valid()
      modifies this`productosCache, db`productos
      ensures Valid() && db.saved == old(db.saved)
      ensures Resuelto(old(productosCache), old(db.productos), productosCache, db.productos,
                       Clave(referencia), NuevoProductoCsv(referencia, nombre, PrecioDeFila(fila, conv)))
      ensures Clave(referencia) in productosCache && id == productosCache[Clave(referencia)]
    {
      var clave := Clave(referencia);
      if clave in productosCache {
        return productosCache[clave];
      }
      var nuevo := NuevoProductoCsv(referencia, nombre, PrecioDeFila(fila, conv));
      var ins := Insert(db.productos, nuevo);
      IndiceAlta(productosCache, db.productos.rows, ClaveProducto, ins.1, nuevo);
      db.productos := ins.0;
      id := ins.1;
      productosCache := productosCache[clave := id];
    }

    /**
     * `procesarFila`: reject a row without a salesperson (before anything is
     * written) or without a reference (after the salesperson is resolved);
     * otherwise resolve both and insert the sale or return.
     */
    method ProcesarFila(fila: map<string, string>, linea: nat, conv: Conversores, archivo: string)
      returns (ok: bool)
      requires Valid()
      modifies this`vendedoresCache, this`productosCache, this`stats, db`vendedores, db`productos, db`ventas
      ensures Valid() && db.saved == old(db.saved)
      ensures ok <==> FallaDeFila(fila).None?
      ensures ok ==> stats == old(stats)
      ensures !ok ==> stats == old(stats).(errores := old(stats.errores) + [MensajeLinea(linea, FallaDeFila(fila).value)])
      ensures Falsy(NombreVendedor(fila)) ==>
                vendedoresCache == old(vendedoresCache) && db.vendedores == old(db.vendedores)
      ensures !Falsy(NombreVendedor(fila)) ==> Clave(NombreVendedor(fila)) in vendedoresCache
      ensures !Falsy(NombreVendedor(fila)) ==>
                Resuelto(old(vendedoresCache), old(db.vendedores), vendedoresCache, db.vendedores,
                         Clave(NombreVendedor(fila)),
                         NuevoVendedorCsv(NombreVendedor(fila), |old(vendedoresCache)|, conv.hoy))
      ensures !ok ==> productosCache == old(productosCache) && db.productos == old(db.productos)
      ensures !ok ==> db.ventas == old(db.ventas)
      ensures ok ==> VentaRegistrada(old(productosCache), old(db.productos), old(db.ventas),
                                     productosCache, db.productos, db.ventas,
                                     fila, conv, vendedoresCache[Clave(NombreVendedor(fila))], archivo)
      ensures Estado() == TrasFila(old(Estado()), fila, conv, archivo)
    {
      if Falsy(NombreVendedor(fila)) {
        RegistrarError(MensajeLinea(linea, "Vendedor vacío"));
        return false;
      }
      ok := ProcesarFilaConVendedor(fila, linea, conv, archivo);
    }

    /** `procesarFila` once the salesperson name is known to be present. */
    method ProcesarFilaConVendedor(fila: map<string, string>, linea: nat, conv: Conversores, archivo: string)
      returns (ok: bool)
      requires Valid() && !Falsy(NombreVendedor(fila))
      modifies this`vendedoresCache, this`productosCache, this`stats, db`vendedores, db`productos, db`ventas
      ensures Valid() && db.saved == old(db.saved)
      ensures ok <==> !Falsy(Referencia(fila))
      ensures ok ==> stats == old(stats)
      ensures !ok ==> stats == old(stats).(errores := old(stats.errores) + [MensajeLinea(linea, "Referencia de producto vacía")])
      ensures Clave(NombreVendedor(fila)) in vendedoresCache
      ensures Resuelto(old(vendedoresCache), old(db.vendedores), vendedoresCache, db.vendedores,
                       Clave(NombreVendedor(fila)),
                       NuevoVendedorCsv(NombreVendedor(fila), |old(vendedoresCache)|, conv.hoy))
      ensures !ok ==> productosCache == old(productosCache) && db.productos == old(db.productos)
      ensures !ok ==> db.ventas == old(db.ventas)
      ensures ok ==> VentaRegistrada(old(productosCache), old(db.productos), old(db.ventas),
                                     productosCache, db.productos, db.ventas,
                                     fila, conv, vendedoresCache[Clave(NombreVendedor(fila))], archivo)
      ensures Estado() == TrasFila(old(Estado()), fila, conv, archivo)
    {
      var vendedorId := ObtenerOCrearVendedor(NombreVendedor(fila), conv.hoy);
      ok := ProcesarProducto(fila, linea, conv, vendedorId, archivo);
    }

    /** The rest of `procesarFila` once the salesperson is resolved: check the reference, then record the row. */
    method ProcesarProducto(fila: map<string, string>, linea: nat, conv: Conversores, vendedorId: int, archivo: string)
      returns (ok: bool)
      requires Valid()
      modifies this`productosCache, this`stats, db`productos, db`ventas
      ensures Valid() && db.saved == old(db.saved)
      ensures ok <==> !Falsy(Referencia(fila))
      ensures ok ==> stats == old(stats)
      ensures !ok ==> stats == old(stats).(errores := old(stats.errores) + [MensajeLinea(linea, "Referencia de producto vacía")])
      ensures !ok ==> productosCache == old(productosCache) && db.productos == old(db.productos)
      ensures !ok ==> db.ventas == old(db.ventas)
      ensures ok ==> VentaRegistrada(old(productosCache), old(db.productos), old(db.ventas),
                                     productosCache, db.productos, db.ventas, fila, conv, vendedorId, archivo)
      ensures vendedoresCache == old(vendedoresCache) && db.vendedores == old(db.vendedores)
      ensures Estado() == if ok then ConVenta(old(Estado()), fila, conv, vendedorId, archivo) else old(Estado())
    {
      if Falsy(Referencia(fila)) {
        RegistrarError(MensajeLinea(linea, "Referencia de producto vacía"));
        return false;
      }
      RegistrarVenta(fila, conv, vendedorId, archivo);
      ok := true;
    }

    /** The tail of `procesarFila`: resolve the product, then insert the sale or return. */
    method RegistrarVenta(fila: map<string, string>, conv: Conversores, vendedorId: int, archivo: string)
      requires Valid()
      modifies this`productosCache, db`productos, db`ventas
      ensures Valid() && db.saved == old(db.saved)
      ensures VentaRegistrada(old(productosCache), old(db.productos), old(db.ventas),
                              productosCache, db.productos, db.ventas, fila, conv, vendedorId, archivo)
      ensures Estado() == ConVenta(old(Estado()), fila, conv, vendedorId, archivo)
    {
      var productoId := ObtenerOCrearProducto(Referencia(fila), NombreProducto(fila), fila, conv);
      var ins := Insert(db.ventas, NuevaVenta(fila, conv, vendedorId, productoId, archivo));
      db.ventas := ins.0;
    }

    /**
     * One pass of the `procesarArchivo` loop: a blank record is skipped;
     * any other counts as processed and then as a success or a failure.
     * Every success adds one sale or return.
     */
    method ProcesarLinea(h: seq<string>, datos: seq<string>, numero: nat, conv: Conversores, archivo: string)
      returns (ok: bool)
      requires Valid() && (Vacia(datos) || |datos| == |h|)
      modifies this`vendedoresCache, this`productosCache, this`stats, db`vendedores, db`productos, db`ventas
      ensures Valid() && db.saved == old(db.saved)
      ensures Paso(old(stats), stats, h, datos, numero, ok)
      ensures |db.ventas.rows| == |old(db.ventas.rows)| + (if ok then 1 else 0)
      ensures Estado() == TrasRegistro(old(Estado()), Registro(h, datos), conv, archivo)
    {
      if Vacia(datos) {
        LineaVacia(Estado(), stats, h, datos, numero, conv, archivo);
        return false;
      }
      ok := ContarRegistro(Estado(), h, datos, numero, conv, archivo);
    }

    /**
     * A non-blank record in the `procesarArchivo` loop: counted as processed,
     * handed to `procesarFila`, then counted as a success or a failure.
     * `antes` is the state of the tables and caches the record starts from.
     */
    method ContarRegistro(ghost antes: Tablas, h: seq<string>, datos: seq<string>, numero: nat, conv: Conversores, archivo: string)
      returns (ok: bool)
      requires Valid() && !Vacia(datos) && |datos| == |h| && antes == Estado()
      modifies this`vendedoresCache, this`productosCache, this`stats, db`vendedores, db`productos, db`ventas
      ensures Valid() && db.saved == old(db.saved)
      ensures Paso(old(stats), stats, h, datos, numero, ok)
      ensures |db.ventas.rows| == |old(db.ventas.rows)| + (if ok then 1 else 0)
      ensures Estado() == TrasRegistro(antes, Registro(h, datos), conv, archivo)
    {
      ghost var s0 := stats;
      stats := stats.(procesados := stats.procesados + 1);
      ok := ProcesarRegistro(antes, h, datos, numero, conv, archivo);
      ghost var e1 := Estado();
      if ok {
        stats := stats.(exitosos := stats.exitosos + 1);
      } else {
        stats := stats.(fallidos := stats.fallidos + 1);
      }
      assert Estado() == e1;
      PasoDeRegistro(s0, stats, h, datos, numero, ok);
    }

    /**
     * `procesarFila` on a non-blank record, as the loop sees it: the error it
     * records, and one more sale on success. `antes` is the state of the
     * tables and caches the record starts from.
     */
    method ProcesarRegistro(ghost antes: Tablas, h: seq<string>, datos: seq<string>, numero: nat, conv: Conversores, archivo: string)
      returns (ok: bool)
      requires Valid() && !Vacia(datos) && |datos| == |h| && antes == Estado()
      modifies this`vendedoresCache, this`productosCache, this`stats, db`vendedores, db`productos, db`ventas
      ensures Valid() && db.saved == old(db.saved)
      ensures ok <==> FallaLinea(h, datos).None?
      ensures ok ==> stats == old(stats)
      ensures !ok ==> stats == old(stats).(errores := old(stats.errores) + [MensajeLinea(numero, FallaLinea(h, datos).value)])
      ensures |db.ventas.rows| == |old(db.ventas.rows)| + (if ok then 1 else 0)
      ensures Estado() == TrasRegistro(antes, Registro(h, datos), conv, archivo)
    {
      var fila := Combinar(h, datos);
      ghost var pc, p, v := productosCache, db.productos, db.ventas;
      assert FallaLinea(h, datos) == FallaDeFila(fila);
      ok := ProcesarFila(fila, numero, conv, archivo);
      if ok {
        UnaVentaMas(pc, p, v, productosCache, db.productos, db.ventas, fila, conv,
                    vendedoresCache[Clave(NombreVendedor(fila))], archivo);
      }
    }

    /**
     * The `procesarArchivo` loop over the data records: the counters grow by
     * the records counted and the errors recorded, and every success is one
     * more row in `ventas`.
     */
    method ProcesarLineas(h: seq<string>, lineas: seq<seq<string>>, conv: Conversores, archivo: string)
      requires Valid() && Alineadas(h, lineas)
      modifies this`vendedoresCache, this`productosCache, this`stats, db`vendedores, db`productos, db`ventas
      ensures Valid() && db.saved == old(db.saved)
      ensures Contado(old(stats), stats, h, lineas)
      ensures |db.ventas.rows| == |old(db.ventas.rows)| + (stats.exitosos - old(stats.exitosos))
      ensures Estado() == TrasRegistros(old(Estado()), Registros(h, lineas), conv, archivo)
    {
      var i := 0;
      while i < |lineas|
        invariant 0 <= i <= |lineas|
        invariant Valid() && db.saved == old(db.saved)
        invariant Contado(old(stats), stats, h, lineas[..i])
        invariant |db.ventas.rows| == |old(db.ventas.rows)| + (stats.exitosos - old(stats.exitosos))
        invariant Estado() == TrasRegistros(old(Estado()), Registros(h, lineas[..i]), conv, archivo)
      {
        ghost var s := stats;
        var ok := ProcesarLinea(h, lineas[i], i + 2, conv, archivo);
        ContadoPaso(old(stats), s, stats, h, lineas, i, ok);
        RegistrosPaso(h, lineas, i);
        TrasRegistrosPaso(old(Estado()), Registros(h, lineas[..i]), Registro(h, lineas[i]), conv, archivo);
        i := i + 1;
      }
      assert lineas[..i] == lineas;
    }

    /**
     * `procesarArchivo`: an unopenable file or a missing header records an
     * error and writes nothing; otherwise the data records are processed in
     * one transaction, which is committed.
     */
    method ProcesarArchivo(archivo: Archivo, conv: Conversores, nombre: string) returns (ok: bool)
      requires Valid() && db.saved == None && BienFormado(archivo)
      modifies this`vendedoresCache, this`productosCache, this`stats
      modifies db`vendedores, db`productos, db`ventas, db`saved
      ensures Valid() && db.saved == None
      ensures ok <==> archivo.Legible? && LecturaDe(archivo).encabezados.Some?
      ensures !archivo.Legible? ==>
                stats == old(stats).(errores := old(stats.errores) + ["No se pudo abrir el archivo"])
      ensures archivo.Legible? && LecturaDe(archivo).encabezados.None? ==>
                stats == old(stats).(errores := old(stats.errores) + ["No se pudieron leer los encabezados"])
      ensures !ok ==> vendedoresCache == old(vendedoresCache) && productosCache == old(productosCache)
      ensures !ok ==> db.vendedores == old(db.vendedores) && db.productos == old(db.productos)
      ensures !ok ==> db.ventas == old(db.ventas)
      ensures ok ==> Contado(old(stats), stats, Recortados(LecturaDe(archivo).encabezados.value), LecturaDe(archivo).lineas)
      ensures ok ==> |db.ventas.rows| == |old(db.ventas.rows)| + (stats.exitosos - old(stats.exitosos))
      ensures Estado() == TrasArchivo(old(Estado()), archivo, conv, nombre)
    {
      if !archivo.Legible? {
        RegistrarError("No se pudo abrir el archivo");
        return false;
      }
      var delimitador := DetectarDelimitador(archivo.primeraLinea);
      var lectura := archivo.leer(delimitador);
      if lectura.encabezados.None? {
        RegistrarError("No se pudieron leer los encabezados");
        return false;
      }
      var h := Recortados(lectura.encabezados.value);
      db.BeginTransaction();
      assert Estado() == old(Estado());
      ProcesarLineas(h, lectura.lineas, conv, nombre);
      db.Commit();
      ok := true;
    }

    /** `registrarInicioImportacion`: insert the log row of this run and remember its key. */
    method RegistrarInicioImportacion(nombre: string, tipo: string)
      requires Valid()
      modifies this`logId, db`logs
      ensures Valid() && db.saved == old(db.saved)
      ensures db.logs == Insert(old(db.logs), InicioLog(nombre, tipo)).0
      ensures logId == Insert(old(db.logs), InicioLog(nombre, tipo)).1
    {
      var ins := Insert(db.logs, InicioLog(nombre, tipo));
      db.logs := ins.0;
      logId := ins.1;
    }

    /**
     * `finalizarImportacion`: `UPDATE ... WHERE id = logId` writes the
     * counters, the first hundred errors and the final state into the log
     * row of this run, and changes nothing when there is no such row.
     */
    method FinalizarImportacion()
      requires Valid()
      modifies db`logs
      ensures Valid() && db.saved == old(db.saved)
      ensures db.logs.next == old(db.logs.next)
      ensures db.logs.rows == if logId in old(db.logs.rows)
                              then old(db.logs.rows)[logId := Terminado(old(db.logs.rows)[logId], stats)]
                              else old(db.logs.rows)
    {
      if logId in db.logs.rows {
        db.logs := db.logs.(rows := db.logs.rows[logId := Terminado(db.logs.rows[logId], stats)]);
      }
    }

    /**
     * `importar`: a missing file records an error and leaves no log row;
     * otherwise the run is logged, the file processed, and the log row
     * closed with the final counters.
     */
    method Importar(archivo: Archivo, ruta: string, nombre: string, tipo: string, conv: Conversores)
      returns (ok: bool)
      requires Valid() && db.saved == None && BienFormado(archivo)
      modifies this`logId, this`vendedoresCache, this`productosCache, this`stats
      modifies db`vendedores, db`productos, db`ventas, db`saved, db`logs
      ensures Valid() && db.saved == None
      ensures ok <==> archivo.Legible? && LecturaDe(archivo).encabezados.Some?
      ensures archivo.NoExiste? ==>
                stats == old(stats).(errores := old(stats.errores) + ["Archivo no encontrado: " + ruta])
      ensures archivo.NoExiste? ==> db.logs == old(db.logs)
      ensures !archivo.NoExiste? ==>
                logId == old(db.logs.next) && logId !in old(db.logs.rows)
                && db.logs.rows == old(db.logs.rows)[logId := Terminado(InicioLog(nombre, tipo), stats)]
      ensures !ok ==> stats.procesados == old(stats.procesados) && stats.fallidos == old(stats.fallidos)
      ensures !ok ==> db.ventas == old(db.ventas)
      ensures ok ==> Contado(old(stats), stats, Recortados(LecturaDe(archivo).encabezados.value), LecturaDe(archivo).lineas)
      ensures ok ==> |db.ventas.rows| == |old(db.ventas.rows)| + (stats.exitosos - old(stats.exitosos))
      ensures Estado() == TrasArchivo(old(Estado()), archivo, conv, nombre)
    {
      if archivo.NoExiste? {
        RegistrarError("Archivo no encontrado: " + ruta);
        return false;
      }
      RegistrarInicioImportacion(nombre, tipo);
      assert Estado() == old(Estado());
      ok := ProcesarArchivo(archivo, conv, nombre);
      ghost var e := Estado();
      FinalizarImportacion();
      assert Estado() == e;
    }
  }

  /**
   * The product of `fila` is resolved or created, and one `ventas` row is
   * inserted for it and the salesperson `vendedorId`.
   */
  ghost predicate VentaRegistrada(antesCache: map<string, int>, antesP: Table<ProductoRow>, antesV: Table<VentaRow>,
                                  cache: map<string, int>, productos: Table<ProductoRow>, ventas: Table<VentaRow>,
                                  fila: map<string, string>, conv: Conversores, vendedorId: int, archivo: string)
    requires antesP.Valid() && antesV.Valid()
  {
    && Resuelto(antesCache, antesP, cache, productos, Clave(Referencia(fila)),
                NuevoProductoCsv(Referencia(fila), NombreProducto(fila), PrecioDeFila(fila, conv)))
    && Clave(Referencia(fila)) in cache
    && ventas == Insert(antesV, NuevaVenta(fila, conv, vendedorId, cache[Clave(Referencia(fila))], archivo)).0
  }

  /** Registering a sale adds exactly one row to `ventas`. */
  lemma UnaVentaMas(antesCache: map<string, int>, antesP: Table<ProductoRow>, antesV: Table<VentaRow>,
                    cache: map<string, int>, productos: Table<ProductoRow>, ventas: Table<VentaRow>,
                    fila: map<string, string>, conv: Conversores, vendedorId: int, archivo: string)
    requires antesP.Valid() && antesV.Valid()
    requires VentaRegistrada(antesCache, antesP, antesV, cache, productos, ventas, fila, conv, vendedorId, archivo)
    ensures |ventas.rows| == |antesV.rows| + 1
  {
  }

  // ------------------------------------------------- a run, as values

  /** The three tables an import writes and the two caches that index them. */
  datatype Tablas = Tablas(
    vendedores: Table<VendedorRow>,
    productos: Table<ProductoRow>,
    ventas: Table<VentaRow>,
    vendedoresCache: map<string, int>,
    productosCache: map<string, int>)
  {
    ghost predicate Valid() {
      vendedores.Valid() && productos.Valid() && ventas.Valid()
    }

    /** The caches resolve exactly the names and references stored in the tables. */
    ghost predicate Indexadas() {
      && Indice(vendedoresCache, vendedores.rows, ClaveVendedor)
      && Indice(productosCache, productos.rows, ClaveProducto)
    }
  }

  /** `obtenerOCrearVendedor` on the tables: the salesperson named `nombre` resolved or created. */
  function ConVendedor(t: Tablas, nombre: string, hoy: string): (r: Tablas)
    requires t.Valid()
    ensures r.Valid() && Clave(nombre) in r.vendedoresCache
  {
    var rv := Resolver(t.vendedoresCache, t.vendedores, Clave(nombre), NuevoVendedorCsv(nombre, |t.vendedoresCache|, hoy));
    t.(vendedores := rv.1, vendedoresCache := rv.0)
  }

  /**
   * The tail of `procesarFila` on the tables: the product of `fila` resolved
   * or created, and the sale or return inserted for it and `vendedorId`.
   */
  function ConVenta(t: Tablas, fila: map<string, string>, conv: Conversores, vendedorId: int, archivo: string): (r: Tablas)
    requires t.Valid()
    ensures r.Valid() && Clave(Referencia(fila)) in r.productosCache
  {
    var rp := Resolver(t.productosCache, t.productos, Clave(Referencia(fila)),
                       NuevoProductoCsv(Referencia(fila), NombreProducto(fila), PrecioDeFila(fila, conv)));
    var venta := NuevaVenta(fila, conv, vendedorId, rp.0[Clave(Referencia(fila))], archivo);
    t.(productos := rp.1, productosCache := rp.0, ventas := Insert(t.ventas, venta).0)
  }

  /**
   * What `procesarFila` does to the tables and caches: nothing for a row
   * without a salesperson; only the salesperson resolved for a row without a
   * reference; otherwise the salesperson and the product resolved and the
   * sale or return inserted for both.
   */
  function TrasFila(t: Tablas, fila: map<string, string>, conv: Conversores, archivo: string): (r: Tablas)
    requires t.Valid()
    ensures r.Valid()
  {
    if Falsy(NombreVendedor(fila)) then t
    else
      var t1 := ConVendedor(t, NombreVendedor(fila), conv.hoy);
      if Falsy(Referencia(fila)) then t1
      else ConVenta(t1, fila, conv, t1.vendedoresCache[Clave(NombreVendedor(fila))], archivo)
  }

  /** The record of a data line: none for a blank line or one that does not match the header. */
  function Registro(h: seq<string>, datos: seq<string>): Option<map<string, string>> {
    if Vacia(datos) || |datos| != |h| then None else Some(Combinar(h, datos))
  }

  /** The records of the data lines, in order. */
  function Registros(h: seq<string>, lineas: seq<seq<string>>): (rs: seq<Option<map<string, string>>>)
    ensures |rs| == |lineas|
  {
    if lineas == [] then [] else Registros(h, lineas[..|lineas| - 1]) + [Registro(h, lineas[|lineas| - 1])]
  }

  /** The records of the first `i + 1` lines are those of the first `i` and the record of line `i`. */
  lemma RegistrosPaso(h: seq<string>, lineas: seq<seq<string>>, i: nat)
    requires i < |lineas|
    ensures Registros(h, lineas[..i + 1]) == Registros(h, lineas[..i]) + [Registro(h, lineas[i])]
  {
    assert lineas[..i + 1][..i] == lineas[..i];
  }

  /** The `i`-th line yields the `i`-th record. */
  lemma {:induction false} RegistrosEn(h: seq<string>, lineas: seq<seq<string>>, i: nat)
    requires i < |lineas|
    ensures Registros(h, lineas)[i] == Registro(h, lineas[i])
  {
    var n := |lineas| - 1;
    if i < n {
      RegistrosEn(h, lineas[..n], i);
      assert lineas[..n][i] == lineas[i];
    }
  }

  /** What one record of the loop does: no record changes nothing. */
  function TrasRegistro(t: Tablas, x: Option<map<string, string>>, conv: Conversores, archivo: string): (r: Tablas)
    requires t.Valid()
    ensures r.Valid()
  {
    match x
    case None => t
    case Some(fila) => TrasFila(t, fila, conv, archivo)
  }

  /** The tables and caches after the records `rs`, one after another. */
  function TrasRegistros(t: Tablas, rs: seq<Option<map<string, string>>>, conv: Conversores, archivo: string): (r: Tablas)
    requires t.Valid()
    ensures r.Valid()
  {
    if rs == [] then t
    else TrasRegistro(TrasRegistros(t, rs[..|rs| - 1], conv, archivo), rs[|rs| - 1], conv, archivo)
  }

  lemma TrasRegistrosPaso(t: Tablas, rs: seq<Option<map<string, string>>>, x: Option<map<string, string>>,
                          conv: Conversores, archivo: string)
    requires t.Valid()
    ensures TrasRegistros(t, rs + [x], conv, archivo) == TrasRegistro(TrasRegistros(t, rs, conv, archivo), x, conv, archivo)
  {
    assert (rs + [x])[..|rs|] == rs;
  }

  /**
   * What `procesarArchivo` does to the tables and caches: nothing for a file
   * that cannot be opened or has no header line, otherwise the records of
   * its data lines one after another.
   */
  function TrasArchivo(t: Tablas, a: Archivo, conv: Conversores, nombre: string): (r: Tablas)
    requires t.Valid()
    ensures r.Valid()
  {
    if a.Legible? && LecturaDe(a).encabezados.Some? then
      TrasRegistros(t, Registros(Recortados(LecturaDe(a).encabezados.value), LecturaDe(a).lineas), conv, nombre)
    else t
  }

  /** A record that adds a sale: present, naming a salesperson and a reference. */
  predicate Exitoso(x: Option<map<string, string>>) {
    x.Some? && FallaDeFila(x.value).None?
  }

  /** The number of records in `rs` that add a sale. */
  function Exitosos(rs: seq<Option<map<string, string>>>): (n: nat)
    ensures n <= |rs|
  {
    if rs == [] then 0 else Exitosos(rs[..|rs| - 1]) + (if Exitoso(rs[|rs| - 1]) then 1 else 0)
  }

  /**
   * With every non-blank line matching the header, the lines that add a
   * sale are the processed ones that record no error.
   */
  lemma {:induction false} ExitososCuenta(h: seq<string>, lineas: seq<seq<string>>)
    requires Alineadas(h, lineas)
    ensures Exitosos(Registros(h, lineas)) + |ErroresDe(h, lineas)| == NoVacias(lineas)
  {
    if lineas != [] {
      var n := |lineas| - 1;
      assert Alineadas(h, lineas[..n]) by {
        forall i | 0 <= i < n && !Vacia(lineas[..n][i]) ensures |lineas[..n][i]| == |h| {
          assert lineas[..n][i] == lineas[i];
        }
      }
      ExitososCuenta(h, lineas[..n]);
      assert Registros(h, lineas)[..n] == Registros(h, lineas[..n]);
    }
  }

  /** `r` keeps every cache entry and every row of `t`, and `ventas` only grows. */
  ghost predicate Crece(t: Tablas, r: Tablas) {
    && Extiende(t.vendedoresCache, r.vendedoresCache) && Extiende(t.productosCache, r.productosCache)
    && Extiende(t.vendedores.rows, r.vendedores.rows) && Extiende(t.productos.rows, r.productos.rows)
    && Extiende(t.ventas.rows, r.ventas.rows) && t.ventas.next <= r.ventas.next
  }

  lemma CreceTransitivo(a: Tablas, b: Tablas, c: Tablas)
    requires Crece(a, b) && Crece(b, c)
    ensures Crece(a, c)
  {
  }

  /**
   * `r` is `t` after `n` more sales: the caches stay exact, nothing is lost,
   * and the keys of `ventas` are the old ones and the next `n`.
   */
  ghost predicate Avance(t: Tablas, r: Tablas, n: nat) {
    && r.Indexadas() && Crece(t, r)
    && r.ventas.next == t.ventas.next + n
    && (forall id :: id in r.ventas.rows <==> id in t.ventas.rows || t.ventas.next <= id < r.ventas.next)
  }

  lemma AvanceTransitivo(a: Tablas, b: Tablas, c: Tablas, n1: nat, n2: nat)
    requires Avance(a, b, n1) && Avance(b, c, n2)
    ensures Avance(a, c, n1 + n2)
  {
    CreceTransitivo(a, b, c);
  }

  /**
   * The `ventas` row under key `k` is the sale or return of `fila`, for the
   * salesperson and the product the caches of `r` resolve its name and its
   * reference to.
   */
  ghost predicate VentaEn(r: Tablas, k: int, fila: map<string, string>, conv: Conversores, archivo: string) {
    && Clave(NombreVendedor(fila)) in r.vendedoresCache
    && Clave(Referencia(fila)) in r.productosCache
    && k in r.ventas.rows
    && r.ventas.rows[k] ==
         NuevaVenta(fila, conv, r.vendedoresCache[Clave(NombreVendedor(fila))],
                    r.productosCache[Clave(Referencia(fila))], archivo)
  }

  /** Resolving a key against an exact cache, creating a row with that key on a miss, keeps the cache exact. */
  lemma ResolverIndice<T>(cache: map<string, int>, t: Table<T>, clave: string, nuevo: T, claveDe: T -> string)
    requires t.Valid() && Indice(cache, t.rows, claveDe) && claveDe(nuevo) == clave
    ensures Indice(Resolver(cache, t, clave, nuevo).0, Resolver(cache, t, clave, nuevo).1.rows, claveDe)
  {
    if clave !in cache {
      IndiceAlta(cache, t.rows, claveDe, t.next, nuevo);
    }
  }

  /** Resolving the salesperson keeps the caches exact and only adds. */
  lemma ConVendedorPaso(t: Tablas, nombre: string, hoy: string)
    requires t.Valid() && t.Indexadas()
    ensures Avance(t, ConVendedor(t, nombre, hoy), 0)
  {
    ResolverIndice(t.vendedoresCache, t.vendedores, Clave(nombre),
                   NuevoVendedorCsv(nombre, |t.vendedoresCache|, hoy), ClaveVendedor);
  }

  /**
   * Recording a valid row keeps the caches exact, only adds, and adds
   * exactly its sale or return under the next key of `ventas`.
   */
  lemma ConVentaPaso(t: Tablas, fila: map<string, string>, conv: Conversores, archivo: string)
    requires t.Valid() && t.Indexadas() && Clave(NombreVendedor(fila)) in t.vendedoresCache
    ensures var r := ConVenta(t, fila, conv, t.vendedoresCache[Clave(NombreVendedor(fila))], archivo);
      Avance(t, r, 1) && VentaEn(r, t.ventas.next, fila, conv, archivo)
  {
    ResolverIndice(t.productosCache, t.productos, Clave(Referencia(fila)),
                   NuevoProductoCsv(Referencia(fila), NombreProducto(fila), PrecioDeFila(fila, conv)), ClaveProducto);
  }

  /**
   * One row keeps the caches exact and only adds: a failing row adds no
   * sale; a valid one adds exactly its sale or return under the next key.
   */
  lemma TrasFilaPaso(t: Tablas, fila: map<string, string>, conv: Conversores, archivo: string)
    requires t.Valid() && t.Indexadas()
    ensures var r := TrasFila(t, fila, conv, archivo);
      && Avance(t, r, if FallaDeFila(fila).None? then 1 else 0)
      && (FallaDeFila(fila).None? ==> VentaEn(r, t.ventas.next, fila, conv, archivo))
  {
    if !Falsy(NombreVendedor(fila)) {
      var t1 := ConVendedor(t, NombreVendedor(fila), conv.hoy);
      ConVendedorPaso(t, NombreVendedor(fila), conv.hoy);
      if !Falsy(Referencia(fila)) {
        var r := ConVenta(t1, fila, conv, t1.vendedoresCache[Clave(NombreVendedor(fila))], archivo);
        ConVentaPaso(t1, fila, conv, archivo);
        AvanceTransitivo(t, t1, r, 0, 1);
      }
    }
  }

  /** One record keeps the caches exact and only adds; one that adds a sale adds it under the next key. */
  lemma TrasRegistroPaso(t: Tablas, x: Option<map<string, string>>, conv: Conversores, archivo: string)
    requires t.Valid() && t.Indexadas()
    ensures var r := TrasRegistro(t, x, conv, archivo);
      && Avance(t, r, if Exitoso(x) then 1 else 0)
      && (Exitoso(x) ==> VentaEn(r, t.ventas.next, x.value, conv, archivo))
  {
    if x.Some? {
      TrasFilaPaso(t, x.value, conv, archivo);
    }
  }

  /**
   * A run keeps the caches exact and only adds: the old rows of every table
   * are untouched, and the keys of `ventas` are the old ones and one new key
   * per record that adds a sale, following `next`.
   */
  lemma {:induction false} TrasRegistrosCrece(t: Tablas, rs: seq<Option<map<string, string>>>,
                                             conv: Conversores, archivo: string)
    requires t.Valid() && t.Indexadas()
    ensures Avance(t, TrasRegistros(t, rs, conv, archivo), Exitosos(rs))
  {
    if rs != [] {
      var n := |rs| - 1;
      var m := TrasRegistros(t, rs[..n], conv, archivo);
      TrasRegistrosCrece(t, rs[..n], conv, archivo);
      TrasRegistroPaso(m, rs[n], conv, archivo);
      AvanceTransitivo(t, m, TrasRegistros(t, rs, conv, archivo), Exitosos(rs[..n]), if Exitoso(rs[n]) then 1 else 0);
    }
  }

  /**
   * What a valid row inserts, before the ids are resolved: the cache keys
   * of its salesperson and its product, and its sale or return.
   */
  datatype Pedido = Pedido(vendedor: string, producto: string, venta: VentaRow)

  function PedidoDe(fila: map<string, string>, conv: Conversores, archivo: string): Pedido {
    Pedido(Clave(NombreVendedor(fila)), Clave(Referencia(fila)), NuevaVenta(fila, conv, 0, 0, archivo))
  }

  /** Resolving the ids of a row's `Pedido` gives the row `insertVenta` writes. */
  lemma PedidoResuelto(fila: map<string, string>, conv: Conversores, vendedorId: int, productoId: int, archivo: string)
    ensures PedidoDe(fila, conv, archivo).venta.(vendedorId := vendedorId, productoId := productoId)
            == NuevaVenta(fila, conv, vendedorId, productoId, archivo)
  {
  }

  /** The `ventas` row under key `k` is the sale of `p`, with the ids the caches of `r` resolve its keys to. */
  ghost predicate Inserta(r: Tablas, k: int, p: Pedido) {
    && p.vendedor in r.vendedoresCache && p.producto in r.productosCache && k in r.ventas.rows
    && r.ventas.rows[k] == p.venta.(vendedorId := r.vendedoresCache[p.vendedor], productoId := r.productosCache[p.producto])
  }

  /** A row's sale is in place exactly when its `Pedido` is. */
  lemma VentaEnInserta(r: Tablas, k: int, fila: map<string, string>, conv: Conversores, archivo: string)
    ensures VentaEn(r, k, fila, conv, archivo) <==> Inserta(r, k, PedidoDe(fila, conv, archivo))
  {
    var p := PedidoDe(fila, conv, archivo);
    if p.vendedor in r.vendedoresCache && p.producto in r.productosCache {
      PedidoResuelto(fila, conv, r.vendedoresCache[p.vendedor], r.productosCache[p.producto], archivo);
    }
  }

  /** The `Pedido` of a record that adds a sale; `None` for a blank or failing one. */
  function PedidoDeRegistro(x: Option<map<string, string>>, conv: Conversores, archivo: string): (p: Option<Pedido>)
    ensures p.Some? <==> Exitoso(x)
  {
    if Exitoso(x) then Some(PedidoDe(x.value, conv, archivo)) else None
  }

  /** `f` applied to each element, in order. */
  function Mapa<X, Y>(xs: seq<X>, f: X -> Y): (ys: seq<Y>)
    ensures |ys| == |xs|
  {
    if xs == [] then [] else Mapa(xs[..|xs| - 1], f) + [f(xs[|xs| - 1])]
  }

  lemma {:induction false} MapaEn<X, Y>(xs: seq<X>, f: X -> Y, j: nat)
    requires j < |xs|
    ensures Mapa(xs, f)[j] == f(xs[j])
  {
    var n := |xs| - 1;
    if j < n {
      MapaEn(xs[..n], f, j);
      assert xs[..n][j] == xs[j];
    }
  }

  /** The `Pedido`s of a run's records, in order. */
  function Pedidos(rs: seq<Option<map<string, string>>>, conv: Conversores, archivo: string): (ps: seq<Option<Pedido>>)
    ensures |ps| == |rs|
  {
    Mapa(rs, x => PedidoDeRegistro(x, conv, archivo))
  }

  /** The number of entries present among the first `j` of `xs`. */
  function Antes<T>(xs: seq<Option<T>>, j: nat): (n: nat)
    requires j <= |xs|
    ensures n <= j
  {
    if j == 0 then 0 else Antes(xs, j - 1) + (if xs[j - 1].Some? then 1 else 0)
  }

  /** Appending leaves the count of a prefix alone. */
  lemma {:induction false} AntesAgrega<T>(xs: seq<Option<T>>, x: Option<T>, j: nat)
    requires j <= |xs|
    ensures Antes(xs + [x], j) == Antes(xs, j)
  {
    if j > 0 {
      AntesAgrega(xs, x, j - 1);
      assert (xs + [x])[j - 1] == xs[j - 1];
    }
  }

  /** Among the first `j` records, those with a `Pedido` are the ones that add a sale. */
  lemma {:induction false} AntesPedidos(rs: seq<Option<map<string, string>>>, j: nat, conv: Conversores, archivo: string)
    requires j <= |rs|
    ensures Antes(Pedidos(rs, conv, archivo), j) == Exitosos(rs[..j])
  {
    if j > 0 {
      AntesPedidos(rs, j - 1, conv, archivo);
      MapaEn(rs, x => PedidoDeRegistro(x, conv, archivo), j - 1);
      assert rs[..j][..j - 1] == rs[..j - 1] && rs[..j][j - 1] == rs[j - 1];
    }
  }

  /**
   * The rows of `r.ventas` from key `base` on are, in order, the sales of
   * the `Pedido`s present in `ps`: each has its sale under `base` plus the
   * number present before it.
   */
  ghost predicate VentasEn(r: Tablas, base: int, ps: seq<Option<Pedido>>) {
    forall j :: 0 <= j < |ps| && ps[j].Some? ==> Inserta(r, base + Antes(ps, j), ps[j].value)
  }

  /** The sales stay where they are while the tables and caches only grow. */
  lemma VentasEnCrece(t: Tablas, r: Tablas, base: int, ps: seq<Option<Pedido>>)
    requires VentasEn(t, base, ps) && Crece(t, r)
    ensures VentasEn(r, base, ps)
  {
    forall j | 0 <= j < |ps| && ps[j].Some?
      ensures Inserta(r, base + Antes(ps, j), ps[j].value)
    {
      assert Inserta(t, base + Antes(ps, j), ps[j].value);
    }
  }

  /** The sales of some `Pedido`s and of one more under the next key are the sales of all of them. */
  lemma VentasEnUno(r: Tablas, base: int, ps: seq<Option<Pedido>>, x: Option<Pedido>)
    requires VentasEn(r, base, ps)
    requires x.Some? ==> Inserta(r, base + Antes(ps, |ps|), x.value)
    ensures VentasEn(r, base, ps + [x])
  {
    forall j | 0 <= j < |ps + [x]| && (ps + [x])[j].Some?
      ensures Inserta(r, base + Antes(ps + [x], j), (ps + [x])[j].value)
    {
      AntesAgrega(ps, x, j);
    }
  }

  /** Sales kept by growth, and one more sale under the next key, are the sales of all the `Pedido`s. */
  lemma VentasEnAgrega(m: Tablas, r: Tablas, base: int, ps: seq<Option<Pedido>>, x: Option<Pedido>)
    requires Crece(m, r) && VentasEn(m, base, ps)
    requires x.Some? ==> Inserta(r, base + Antes(ps, |ps|), x.value)
    ensures VentasEn(r, base, ps + [x])
  {
    VentasEnCrece(m, r, base, ps);
    VentasEnUno(r, base, ps, x);
  }

  /** One more record keeps the sales of the records before it and adds its own, if any, under the next key. */
  lemma VentasRegistroPaso(t: Tablas, m: Tablas, r: Tablas, rs: seq<Option<map<string, string>>>,
                           conv: Conversores, archivo: string)
    requires rs != [] && Crece(m, r) && m.ventas.next == t.ventas.next + Exitosos(rs[..|rs| - 1])
    requires Exitoso(rs[|rs| - 1]) ==> VentaEn(r, m.ventas.next, rs[|rs| - 1].value, conv, archivo)
    requires VentasEn(m, t.ventas.next, Pedidos(rs[..|rs| - 1], conv, archivo))
    ensures VentasEn(r, t.ventas.next, Pedidos(rs, conv, archivo))
  {
    var n := |rs| - 1;
    var ps, x := Pedidos(rs[..n], conv, archivo), PedidoDeRegistro(rs[n], conv, archivo);
    AntesPedidos(rs[..n], n, conv, archivo);
    assert rs[..n][..n] == rs[..n];
    assert t.ventas.next + Antes(ps, |ps|) == m.ventas.next;
    if Exitoso(rs[n]) {
      VentaEnInserta(r, m.ventas.next, rs[n].value, conv, archivo);
    }
    VentasEnAgrega(m, r, t.ventas.next, ps, x);
    assert Pedidos(rs, conv, archivo) == ps + [x];
  }

  /**
   * The sales a run adds are those of its records that add one, in order
   * from the first new key: each such record's sale or return, for the
   * salesperson and the product its name and its reference resolve to.
   */
  lemma {:induction false} VentasDeRegistros(t: Tablas, rs: seq<Option<map<string, string>>>,
                                            conv: Conversores, archivo: string)
    requires t.Valid() && t.Indexadas()
    ensures VentasEn(TrasRegistros(t, rs, conv, archivo), t.ventas.next, Pedidos(rs, conv, archivo))
  {
    if rs != [] {
      var n := |rs| - 1;
      var m := TrasRegistros(t, rs[..n], conv, archivo);
      VentasDeRegistros(t, rs[..n], conv, archivo);
      TrasRegistrosCrece(t, rs[..n], conv, archivo);
      TrasRegistroPaso(m, rs[n], conv, archivo);
      VentasRegistroPaso(t, m, TrasRegistros(t, rs, conv, archivo), rs, conv, archivo);
    }
  }

  /** The sale of the `j`-th `Pedido` under ordered sales, under a key equal to its place. */
  lemma InsertaEn(r: Tablas, base: int, ps: seq<Option<Pedido>>, j: nat, p: Pedido, k: int)
    requires VentasEn(r, base, ps) && j < |ps| && ps[j] == Some(p) && k == base + Antes(ps, j)
    ensures Inserta(r, k, p)
  {
  }

  /**
   * Each record of a run that adds a sale has its `Pedido` in place: under
   * `next` plus the number of such records before it (`AntesPedidos`), the
   * sale with the ids its keys resolve to at the end of the run.
   */
  lemma VentasTrasRegistros(t: Tablas, rs: seq<Option<map<string, string>>>, j: nat, conv: Conversores, archivo: string)
    requires t.Valid() && t.Indexadas() && j < |rs| && Exitoso(rs[j])
    ensures Inserta(TrasRegistros(t, rs, conv, archivo), t.ventas.next + Antes(Pedidos(rs, conv, archivo), j),
                    PedidoDe(rs[j].value, conv, archivo))
  {
    VentasDeRegistros(t, rs, conv, archivo);
    MapaEn(rs, x => PedidoDeRegistro(x, conv, archivo), j);
    InsertaEn(TrasRegistros(t, rs, conv, archivo), t.ventas.next, Pedidos(rs, conv, archivo), j,
              PedidoDe(rs[j].value, conv, archivo), t.ventas.next + Antes(Pedidos(rs, conv, archivo), j));
  }

  /**
   * What `procesarArchivo` does to a readable file with a header line: the
   * caches stay exact, every old row and cache entry is kept, and the rows
   * added to `ventas` are, from the old `next` on and in file order, the
   * sales and returns of the data lines that name a salesperson and a
   * reference, one each.
   */
  lemma VentasDeArchivo(t: Tablas, a: Archivo, conv: Conversores, nombre: string)
    requires t.Valid() && t.Indexadas() && a.Legible? && LecturaDe(a).encabezados.Some?
    ensures var rs := Registros(Recortados(LecturaDe(a).encabezados.value), LecturaDe(a).lineas);
      && Avance(t, TrasArchivo(t, a, conv, nombre), Exitosos(rs))
      && VentasEn(TrasArchivo(t, a, conv, nombre), t.ventas.next, Pedidos(rs, conv, nombre))
  {
    var rs := Registros(Recortados(LecturaDe(a).encabezados.value), LecturaDe(a).lineas);
    TrasRegistrosCrece(t, rs, conv, nombre);
    VentasDeRegistros(t, rs, conv, nombre);
  }

  /** The cache-loading loop of `loadCaches`. */
  method CargarIndice<T>(es: seq<(int, T)>, clave: T -> string) returns (cache: map<string, int>)
    ensures cache == Indexar(es, clave)
  {
    cache := map[];
    for i := 0 to |es|
      invariant cache == Indexar(es[..i], clave)
    {
      assert es[..i + 1][..i] == es[..i];
      cache := cache[clave(es[i].1) := es[i].0];
    }
    assert es[..|es|] == es;
  }

  /**
   * The body of `detectarDelimitador` over a list of candidates: fill the
   * counts, take `max`, then `array_search` for the first count equal to it.
   */
  method PrimerMasFrecuente(cs: seq<string>, linea: string) returns (d: string)
    requires cs != [] && NoVacios(cs)
    ensures d == Delimitador(cs, linea)
  {
    var counts: seq<nat> := [];
    for i := 0 to |cs|
      invariant |counts| == i
      invariant forall j :: 0 <= j < i ==> counts[j] == Cuenta(linea, cs[j])
    {
      counts := counts + [Cuenta(linea, cs[i])];
    }
    var maximo := Maximo(counts);
    var k := Buscar(counts, maximo);
    var mejor := MejorEntre(cs, linea, |cs|);
    MejorEntreEsPrimerMaximo(cs, linea, |cs|);
    assert counts[mejor] == maximo;
    d := cs[k];
  }

  /** PHP `max` over a non-empty list of counts. */
  method Maximo(counts: seq<nat>) returns (m: nat)
    requires counts != []
    ensures m in counts && forall j :: 0 <= j < |counts| ==> counts[j] <= m
  {
    m := counts[0];
    for i := 1 to |counts|
      invariant m in counts[..i]
      invariant forall j :: 0 <= j < i ==> counts[j] <= m
    {
      if counts[i] > m {
        m := counts[i];
      }
    }
  }

  /** PHP `array_search`: the first position holding `x`, which must occur. */
  method Buscar(counts: seq<nat>, x: nat) returns (k: nat)
    requires x in counts
    ensures k < |counts| && counts[k] == x
    ensures forall j :: 0 <= j < k ==> counts[j] != x
  {
    k := 0;
    while counts[k] != x
      invariant k < |counts| && x in counts[k..]
      invariant forall j :: 0 <= j < k ==> counts[j] != x
      decreases |counts| - k
    {
      k := k + 1;
    }
  }
}

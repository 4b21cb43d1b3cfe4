# Comisiones VentasPlus — a verified model of the commission core

VentasPlus pays its salespeople a monthly commission. The model here covers
the parts of the system that turn sales into commissions:

- **The CSV importer.** It reads a sales file, detects its delimiter, and
  finds or creates the salesperson and the product of every row, using
  caches keyed by the lower-cased trimmed name or reference. It inserts each
  sale or return, counts processed, successful and failed rows, and closes
  an import log row with those counters.
- **The commission service.** For a period `YYYY-MM` and the active rule
  set, it computes each active salesperson's base commission, bonus and
  penalty, and upserts one `comisiones` row per salesperson and period. It
  also refreshes the dashboard metrics, approves or pays commissions in
  bulk, and validates and recalculates periods.
- **The two models.** `Comision` and `Vendedor` hold their SQL statements:
  inserts with column defaults, state updates with MySQL's changed-row
  count, filtered and ordered listings, and aggregates.
- **The commission controller.** Its guards turn service outcomes into
  responses, and its CSV export writes a byte-order mark, a header line and
  one quoted line per row.

The database is one class, `Records.Database`, with one field per table.
Each table is a map from primary key to row plus the next AUTO_INCREMENT
value. In `comisiones`, `ventas_netas`, `porcentaje_devoluciones` and
`comision_final` are treated as generated columns. The code reads them but
never writes them. They are derived from the stored amounts with the
service's own formulas: the return ratio is `Calculo.PorcentajeDevoluciones`,
and `ComisionServicio.ColumnasCalculadasCoinciden` ties all three to the
service's figures. The model classes hold the database and change only the tables they
write. A transaction is a snapshot that `Rollback` restores. Money is
`real`. An SQL aggregate over no rows is `None`. PHP's string truthiness
(`""` and `"0"` are false) is written out.

Modules and files:

- `text.dfy` holds `Common` (Option, Result) and `Text`, the PHP string
  built-ins used: `trim`, `strtolower`, `substr_count`, `str_pad`,
  `implode`, integer to string, and byte-wise string comparison.
- `tables.dfy` holds `Tables` (rows, `WHERE`, `SUM`/`COUNT`/`AVG`, INSERT)
  and `Sorting` (a stable sort for `ORDER BY`).
- `records.dfy` holds `Records`, the rows of each table and the database
  class.
- `calculo.dfy` holds `Calculo`, the commission formula, the notes text and
  period validation.
- `comision_model.dfy` holds `ComisionModel`, and `vendedor_model.dfy` holds
  `VendedorModel`.
- `comision_service.dfy` holds `ComisionServicio`.
- `import_csv.dfy` holds `ImportadorCsv`.
- `comision_controller.dfy` holds `ComisionControlador`.

Two places where the code does not do what it evidently means are listed
under "Findings". For each, a lemma states what the code as written does,
and the operations of the model use the intended behaviour:

- The script's delimiter list holds the two characters `\t` rather than a
  tab. `ImportadorCsv.TabuladorNoDetectado` states this of that list, and
  the importer detects delimiters from a list holding a real tab.
- A recalculation of one salesperson does not check that a rule set
  exists. `Calculo.SinParametrosBonoVacio` states what that yields, and the
  modelled recalculation refuses a missing rule set as the batch does.

Elsewhere the model follows the code where its comments say otherwise: for
example, `rowCount()` counts changed rows, not matched rows.

## Model

| member | source | states |
|---|---|---|
| Calculo.CalcularMontos | backend/app/Services/ComisionService.php:99-125 | net sales are sales minus returns; the base is net sales times the base percentage over 100; the bonus applies exactly when net sales are strictly above the limit and is then net sales times the bonus percentage over 100, else 0; the penalty applies exactly when the return ratio is strictly above its limit and is then net sales times the penalty percentage over 100, else 0; the final amount is base plus bonus minus penalty |
| Calculo.PorcentajeDevoluciones | backend/app/Services/ComisionService.php:103 | the return ratio is 0 without sales and non-negative otherwise |
| Calculo.PorcentajeEsProporcion | backend/app/Services/ComisionService.php:103 | with sales, the ratio times sales equals a hundred times the returns |
| Calculo.ComisionEsTasaSobreNetas | backend/app/Services/ComisionService.php:106-125 | the final commission is net sales times the effective rate (base, plus bonus, minus penalty) |
| Calculo.NoBonusAtThreshold | backend/app/Services/ComisionService.php:111-114 | net sales exactly at the bonus limit earn no bonus |
| Calculo.FinalNonNegativeWithoutPenalty | backend/app/Services/ComisionService.php:106-125 | with non-negative rates and net sales and no penalty, the commission is never negative |
| Calculo.EjemploConBono | backend/app/Services/ComisionService.php:99-125 | a worked example: 1,500,000 sold and 100,000 returned gives a final commission of 210,000 |
| Calculo.EjemploComisionNegativa | backend/app/Services/ComisionService.php:116-125 | the final amount has no floor: a penalty larger than the base makes it negative |
| Calculo.GenerarObservaciones | backend/app/Services/ComisionService.php:182-198 | the bonus and penalty texts, joined by ". ", for the flags that hold; the standard text exactly when neither holds |
| Calculo.ObservacionesRoundTrip | backend/app/Services/ComisionService.php:182-198 | the note can be read back into the two flags, so different flag pairs never share a note |
| Calculo.ValidarPeriodo | backend/app/Services/ComisionService.php:287-299 | accepted exactly when the period matches `^\d{4}-\d{2}$` and is not byte-wise greater than the current month; otherwise one of the two error messages, the format error first |
| Calculo.PeriodoAceptadoTieneFormato | backend/app/Services/ComisionService.php:289 | an accepted period is `YYYY-MM`, possibly followed by one line feed (`$` matches before a final newline) |
| Calculo.MesNoVerificado | backend/app/Services/ComisionService.php:289 | the month digits are not range-checked: months 00 and 13 are accepted |
| Calculo.MesActualYSaltoDeLinea | backend/app/Services/ComisionService.php:289-296 | the current month is accepted; the same month with a trailing line feed compares as later and is refused |
| Calculo.MontosSinParametros | backend/app/Services/ComisionService.php:304-310 | with no rule set, as the single-salesperson recalculation allows, every amount is 0 and the bonus flag holds whenever net sales are not 0 |
| Calculo.SinParametrosBonoVacio | backend/app/Services/ComisionService.php:304-310 | with no rule set, a salesperson with sales is computed as "bonus applied" with a zero bonus; whether that row is stored depends on two failure paths, named under "Findings" |
| ComisionModel.NuevaFila | backend/app/Models/Comision.php:147-170 | the inserted row carries the given columns, with the defaults 0, false, `calculado` and NULL for those left out |
| ComisionModel.ConEstado | backend/app/Models/Comision.php:179-197 | the updated row has the new state and notes (NULL when none are given), the approval date for `aprobado`, the payment date for `pagado`; the salesperson, period, plan, sales and final amount are unchanged |
| ComisionModel.PagadaVuelveAAprobada | backend/app/Models/Comision.php:179-197 | there is no source-state check: a paid commission can be approved again |
| ComisionModel.AprobarEnLote | backend/app/Models/Comision.php:206-211 | after the batch approval, the calculated rows of the period are approved with the approval date, no other row changes, and no calculated row of the period is left |
| ComisionModel.PendientesDe | backend/app/Models/Comision.php:210-211 | the keys the batch approval touches are exactly the calculated rows of the period |
| ComisionModel.AprobarEnLoteIdempotente | backend/app/Models/Comision.php:206-215 | a second batch approval of the same period changes nothing |
| ComisionModel.Comision.Create | backend/app/Models/Comision.php:147-174 | inserts `NuevaFila` under the next AUTO_INCREMENT key, which is fresh and positive, returns that key and advances the counter by one |
| ComisionModel.Comision.UpdateEstado | backend/app/Models/Comision.php:179-201 | rewrites row `id` as `ConEstado`; returns true exactly when the row existed and its content changed |
| ComisionModel.BusquedaIntacta | backend/app/Models/Comision.php:105-116 | when only rows of other salespeople change, the lookup of a salesperson for the period finds the same row |
| ComisionModel.Comision.AprobarLote | backend/app/Models/Comision.php:206-215 | the table becomes `AprobarEnLote`; the count returned is the number of rows changed |
| ComisionModel.AprobarLoteCuentaCambios | backend/app/Models/Comision.php:214 | the batch approval count is exactly the number of rows whose content changed |
| ComisionModel.GetByVendedorPeriodo | backend/app/Models/Comision.php:105-116 | returns nothing exactly when no row has that salesperson and period; otherwise a row of the pair, the first in key order |
| ComisionModel.UnicaEncontrada | backend/app/Models/Comision.php:105-116 | when (salesperson, period) is unique, the lookup finds the one row of the pair |
| ComisionModel.ReemplazoEncontrada | backend/app/Models/Comision.php:105-116 | after the found row is rewritten with the same pair, the lookup finds the new row |
| ComisionModel.PrimeraConPar | backend/app/Models/Comision.php:105-116 | a row of the pair with no row of the pair at a smaller key is the one found |
| ComisionModel.ReemplazoUnica | backend/app/Models/Comision.php:105-116 | rewriting a row without changing its pair keeps (salesperson, period) unique |
| ComisionModel.AltaEncontrada | backend/app/Models/Comision.php:105-116 | inserting a row for a pair that was not found makes the lookup find it, and keeps uniqueness |
| ComisionModel.AltaUnica | backend/app/Models/Comision.php:147-174 | inserting a row for a pair no row has keeps (salesperson, period) unique |
| ComisionModel.GetAll | backend/app/Models/Comision.php:43-76 | exactly the commissions that pass every given filter and whose salesperson and plan exist, each once, newest period first and, within a period, the largest final amount first |
| ComisionModel.EnPeriodo | backend/app/Models/Comision.php:236-237 | exactly the rows of the period |
| ComisionModel.ConBonoAcotado | backend/app/Models/Comision.php:222-231 | when (salesperson, period) is unique, the bonus count never exceeds the number of distinct salespeople |
| ComisionModel.EstadosParticionan | backend/app/Models/Comision.php:233-235 | every row is in exactly one of the three states |
| ComisionModel.GetResumenPeriodo | backend/app/Models/Comision.php:220-241 | with no rows, every aggregate is NULL and no salesperson is counted; otherwise the salesperson count is the number of distinct salespeople, each state count is the number of rows in that state, the flag counts are the flagged rows, every money column is the SUM of that column over the period's rows, the average return ratio is their sum over the row count, net sales are sales minus returns, and total commission is base plus bonuses minus penalties |
| ComisionModel.RangoDe | backend/app/Models/Comision.php:276-282 | every amount falls in exactly one of the five intervals, at the boundaries the `CASE` chain gives |
| ComisionModel.RangoMonotono | backend/app/Models/Comision.php:288 | a larger amount never lands in an earlier interval, so ordering by the group minimum is interval order |
| ComisionModel.Agrupar | backend/app/Models/Comision.php:283-287 | one group per interval label that has rows, in the order of the labels |
| ComisionModel.AgruparAscendente | backend/app/Models/Comision.php:287-288 | labels given in ascending order give groups in ascending order |
| ComisionModel.CantidadesSuman | backend/app/Models/Comision.php:283-287 | over the five labels, every row is counted exactly once |
| ComisionModel.GetDistribucion | backend/app/Models/Comision.php:274-292 | one group per non-empty interval, ascending, each with its row count and a total equal to the sum of the final amounts of the period's rows in that interval; the counts add up to the period's row count |
| ComisionModel.TodosLosRangos | backend/app/Models/Comision.php:276-282 | counting over all five labels counts every row once |
| VendedorModel.NuevoVendedor | backend/app/Models/Vendedor.php:84-91 | the inserted row carries the given columns, with today's date and `activo` as defaults |
| VendedorModel.Ultimo | backend/app/Models/Vendedor.php:104-108 | the value (a string or NULL) of the last entry with that key, or nothing when no entry has it |
| VendedorModel.UltimoTexto | backend/app/Models/Vendedor.php:104-108 | the text of the last non-NULL entry with that key, or nothing when every such entry is NULL or there is none |
| VendedorModel.Aplicar | backend/app/Models/Vendedor.php:104-115 | each whitelisted column takes the value of its last entry, and a NULL clears `email` or `telefono`; `nombre` and `estado` take their last non-NULL value; the code and hiring date never change |
| VendedorModel.Vendedor.Create | backend/app/Models/Vendedor.php:78-95 | inserts `NuevoVendedor` under a fresh, positive key and returns that key |
| VendedorModel.Vendedor.Update | backend/app/Models/Vendedor.php:100-118 | with no whitelisted entry, returns false and writes nothing; otherwise rewrites row `id` with `Aplicar`, so NULL values are bound as given; returns true exactly when the row existed and changed |
| VendedorModel.Vendedor.Delete | backend/app/Models/Vendedor.php:123-127 | a soft delete: the row stays, marked `inactivo`, with every other column kept; returns true exactly when it was not already inactive |
| VendedorModel.GetAll | backend/app/Models/Vendedor.php:33-46 | exactly the salespeople in the given state (all of them when there is none), each once, sorted by name |
| VendedorModel.Search | backend/app/Models/Vendedor.php:229-239 | exactly the active salespeople whose name, code or e-mail contains the query, each once, sorted by name |
| VendedorModel.SearchEncuentraPorNombre | backend/app/Models/Vendedor.php:229-239 | every active salesperson with the query in the name is found |
| VendedorModel.GetVentas | backend/app/Models/Vendedor.php:132-152 | exactly the salesperson's sales whose product exists (in the month, when one is given), each once, with the product name and reference, latest first |
| VendedorModel.VentasDelMes | backend/app/Models/Vendedor.php:187-189 | exactly the salesperson's rows dated in the month |
| VendedorModel.TiposParticionan | backend/app/Models/Vendedor.php:182-183 | sales and returns together count every row |
| VendedorModel.SumaNoNegativa | backend/app/Models/Vendedor.php:185 | the returned amount, a sum of absolute values, is non-negative |
| VendedorModel.GetResumenVentas | backend/app/Models/Vendedor.php:180-197 | the counts of sales and returns add up to the month's rows; the amounts are NULL exactly when there are none and are otherwise the SUM of the sale and of the return amounts over the month's rows; the returned amount is non-negative; net sales are sold minus returned |
| ComisionServicio.Resultado | backend/app/Services/ComisionService.php:90-156 | a failed summary is the exception; no summary or zero sales is null; otherwise the record with the amounts of `CalcularMontos` and the notes of `GenerarObservaciones` |
| ComisionServicio.ColumnasCalculadasCoinciden | backend/app/Services/ComisionService.php:128-155 | the stored row's computed columns equal the service's final amount, net sales and return ratio |
| ComisionServicio.Recalculada | backend/app/Services/ComisionService.php:161-177 | the rewritten row carries the new computed columns and state; the rule set and the approval and payment dates stay |
| ComisionServicio.ReescrituraGuardada | backend/app/Services/ComisionService.php:144-148 | rewriting the found row completes the upsert, leaves the lookup on that same key, and touches only that salesperson's row of the period |
| ComisionServicio.AltaGuardada | backend/app/Services/ComisionService.php:149-152 | inserting a new row when none was found completes the upsert, makes the lookup find that row, and touches only that salesperson's row of the period |
| ComisionServicio.Guardado | backend/app/Services/ComisionService.php:143-152 | the table after the upsert: the lookup finds a row reflecting the calculation, stamped now, and only rows of that salesperson and period differ from before |
| ComisionServicio.TrasLoteRefleja | backend/app/Services/ComisionService.php:53-72 | after the loop, every salesperson with sales has their row of the period holding that calculation, stamped now |
| ComisionServicio.TrasLoteSoloPares | backend/app/Services/ComisionService.php:53-72 | the loop adds or changes only rows of the period belonging to salespeople it calculated with sales; every other row is as before |
| ComisionServicio.TrasCalculoFijo | backend/app/Services/ComisionService.php:143-148 | recalculating a salesperson whose row already holds the same calculation and time leaves the table unchanged |
| ComisionServicio.TrasLoteFijo | backend/app/Services/ComisionService.php:53-72 | a loop over salespeople whose rows already hold their calculations leaves the table unchanged |
| ComisionServicio.TrasLoteIdempotente | backend/app/Services/ComisionService.php:53-72 | running the loop a second time with the same sales, rule set and time leaves the table as the first run left it |
| ComisionServicio.Esperados | backend/app/Services/ComisionService.php:53-72 | every salesperson is processed; successes and errors together never outnumber them |
| ComisionServicio.EsperadosCuenta | backend/app/Services/ComisionService.php:53-72 | the batch's successes are the salespeople with sales, its errors one per salesperson whose summary failed, and its total the sum of the successful final commissions |
| ComisionServicio.ErroresNombranVendedor | backend/app/Services/ComisionService.php:67-69 | every error names a salesperson whose summary failed, with that failure's message |
| ComisionServicio.SinFallasSinErrores | backend/app/Services/ComisionService.php:53-72 | when no summary fails, the batch has no errors |
| ComisionServicio.Porcentaje | backend/app/Services/ComisionService.php:221-223 | 0 without a total; between 0 and 100 when the part does not exceed the total |
| ComisionServicio.PorcentajeDeTotal | backend/app/Services/ComisionService.php:221-223 | the percentage times the total equals a hundred times the part |
| ComisionServicio.MetricasDe | backend/app/Services/ComisionService.php:203-233 | the metrics row carries the period summary's totals, and the bonus share as a percentage of salespeople |
| ComisionServicio.PorcentajeAcotado | backend/app/Services/ComisionService.php:221-223 | when (salesperson, period) is unique, the bonus share is between 0 and 100 |
| ComisionServicio.TrasEstados | backend/app/Services/ComisionService.php:242-246 | a run of state updates adds and removes no row |
| ComisionServicio.TrasEstadosEfecto | backend/app/Services/ComisionService.php:242-246 | a row whose id was given ends in the new state with the new notes; any other row is untouched; no row changes its salesperson, period or final amount |
| ComisionServicio.Cambios | backend/app/Services/ComisionService.php:240-248 | the count of reported changes is at most the number of ids |
| ComisionServicio.TrasEstadosPaso | backend/app/Services/ComisionService.php:242-246 | one more id extends the table and the count by one call |
| ComisionServicio.CambioUnico | backend/app/Services/ComisionService.php:243 | for one id, the count is 1 exactly when that row exists and changed |
| ComisionServicio.ComisionService.ActualizarComision | backend/app/Services/ComisionService.php:161-177 | row `id` becomes `Recalculada`; no row is added |
| ComisionServicio.ComisionService.Guardar | backend/app/Services/ComisionService.php:143-152 | the upsert: the table becomes `Guardado`, which rewrites the found row or inserts one under the next key |
| ComisionServicio.ComisionService.CalcularComisionVendedor | backend/app/Services/ComisionService.php:90-156 | returns `Resultado`; the table becomes `TrasCalculo`: with no sales, unchanged; otherwise the upsert of `CalcularMontos` and its notes; keeps (salesperson, period) unique |
| ComisionServicio.ComisionService.ActualizarMetricasDashboard | backend/app/Services/ComisionService.php:203-234 | the period's metrics entry becomes `MetricasDe` of the current commissions; other periods are kept |
| ComisionServicio.ComisionService.ProcesarVendedor | backend/app/Services/ComisionService.php:54-71 | one pass of the loop: the results record that salesperson's `Resultado`, and the table becomes `TrasCalculo` of that salesperson |
| ComisionServicio.ComisionService.ProcesarVendedores | backend/app/Services/ComisionService.php:53-72 | the loop's results are `Esperados` of the salespeople in order, and the table becomes `TrasLote` of them; uniqueness is kept |
| ComisionServicio.ComisionService.EjecutarLote | backend/app/Services/ComisionService.php:53-79 | the loop's results are `Esperados` of the given salespeople, the table `TrasLote` of them, the metrics refreshed from the new table, and the transaction committed |
| ComisionServicio.ComisionService.CerrarLote | backend/app/Services/ComisionService.php:74-77 | the period's metrics entry is refreshed and the transaction ends, with the commissions table untouched |
| ComisionServicio.ComisionService.CalcularComisionesPeriodo | backend/app/Services/ComisionService.php:33-85 | without a rule set, the error, with every table rolled back; otherwise `Esperados` over the active salespeople by name, the commissions table `TrasLote` of those salespeople, the metrics refreshed, the other tables untouched and uniqueness kept |
| ComisionServicio.ComisionService.AprobarComisiones | backend/app/Services/ComisionService.php:239-249 | the table becomes `TrasEstados(..., aprobado)` and the result is the count of changed rows, at most the number of ids |
| ComisionServicio.ComisionService.MarcarComoPagadas | backend/app/Services/ComisionService.php:254-264 | the table becomes `TrasEstados(..., pagado, obs)` and the result is the count of changed rows, at most the number of ids |
| ComisionServicio.ComisionService.RecalcularVendedor | backend/app/Services/ComisionService.php:307-310 | the single-salesperson branch: a missing rule set is the error with nothing written; otherwise that salesperson's `Resultado`, with the table `TrasCalculo` of that salesperson |
| ComisionServicio.ComisionService.RecalcularComisiones | backend/app/Services/ComisionService.php:304-315 | an invalid period is its error, with nothing written; with a salesperson id, that salesperson's `Resultado` and the table `TrasCalculo` of them; without one, the batch's results and the table `TrasLote` of the active salespeople; a missing rule set is an error in both cases |
| ImportadorCsv.PrimerMaximo | etl/scripts/import_csv.php:165-174 | the detected delimiter is a candidate, no candidate occurs more often, and ties go to the earlier candidate |
| ImportadorCsv.PrimeroSiEmpata | etl/scripts/import_csv.php:173 | when the first candidate occurs at least as often as every other, it is chosen |
| ImportadorCsv.ComaGanaEmpates | etl/scripts/import_csv.php:166-173 | a line where `,` ties for the most occurrences, or where no candidate occurs, is read as comma-separated |
| ImportadorCsv.TabuladorEnLinea | etl/scripts/import_csv.php:166 | on a line with tabs and none of the other candidates, the list as written picks `,`, while a list with a real tab picks the tab |
| ImportadorCsv.TabuladorNoDetectado | etl/scripts/import_csv.php:166 | a concrete tab-separated line that the list as written reads as comma-separated |
| ImportadorCsv.ClaveInsensible | etl/scripts/import_csv.php:260 | names differing only in letter case or surrounding white space share a key |
| ImportadorCsv.IndexarEsIndice | etl/scripts/import_csv.php:35-38 | loading a table gives a cache that resolves exactly the keys of its rows, each to a row with that key |
| ImportadorCsv.IndiceAlta | etl/scripts/import_csv.php:281-282 | caching a new row under its key keeps the cache exact |
| ImportadorCsv.CodigoLeeCuenta | etl/scripts/import_csv.php:268 | the digits of the generated code read back as the cache size plus 11 |
| ImportadorCsv.CodigoSeisCaracteres | etl/scripts/import_csv.php:268 | the generated code has exactly six characters while the cache holds fewer than 989 names |
| ImportadorCsv.EmailSinEspacios | etl/scripts/import_csv.php:269 | the generated address has no space or capital letter before the domain, and ends with the company domain |
| ImportadorCsv.NuevoProductoCsv | etl/scripts/import_csv.php:301-311 | an empty or "0" product name falls back to "Producto <ref>"; the category is `General`; its cache key is the reference's key |
| ImportadorCsv.PrecioDeFila | etl/scripts/import_csv.php:213 | the unit price is never negative |
| ImportadorCsv.ConSigno | etl/scripts/import_csv.php:217-221 | returns carry non-positive amounts and tax; sales keep the parsed sign |
| ImportadorCsv.NuevaVenta | etl/scripts/import_csv.php:199-246 | the inserted row: `devolucion` exactly when the type contains "devol", a reason only for returns, a non-negative quantity and price |
| ImportadorCsv.FallaDeFila | etl/scripts/import_csv.php:182-195 | a row fails with "Vendedor vacío" when the trimmed salesperson is empty or "0"; otherwise with "Referencia de producto vacía" when the reference is; otherwise it does not fail |
| ImportadorCsv.CombinarClaves | etl/scripts/import_csv.php:132 | the combined row's keys are exactly the header fields |
| ImportadorCsv.CombinarValor | etl/scripts/import_csv.php:132 | a header that does not repeat later gets the value in its own column |
| ImportadorCsv.NoVacias | etl/scripts/import_csv.php:125-129 | the number of processed lines is at most the number of lines |
| ImportadorCsv.ErroresNombranLinea | etl/scripts/import_csv.php:251 | every error names the file line of a failing data line, with the reason it failed |
| ImportadorCsv.SinFallasSinErrores | etl/scripts/import_csv.php:179-254 | a file whose lines all have a salesperson and a reference records no error |
| ImportadorCsv.ContadoPaso | etl/scripts/import_csv.php:121-145 | one more record extends the counters by exactly that record's outcome |
| ImportadorCsv.ContadoCuadra | etl/scripts/import_csv.php:129-144 | successes plus failures equal the processed count, whatever the records |
| ImportadorCsv.LineaVacia | etl/scripts/import_csv.php:124-127 | a blank record moves no counter and leaves the tables and caches as they were |
| ImportadorCsv.PasoDeRegistro | etl/scripts/import_csv.php:129-144 | a non-blank record counted as processed and then as a success, or as a failure with its error, is one step of the counters |
| ImportadorCsv.ExitososCuenta | etl/scripts/import_csv.php:121-145 | with every non-blank line matching the header, the records that add a sale plus the errors equal the processed lines |
| ImportadorCsv.UnaVentaMas | etl/scripts/import_csv.php:227-246 | registering a sale adds exactly one row to `ventas` |
| ImportadorCsv.ConVendedorPaso | etl/scripts/import_csv.php:259-287 | resolving a salesperson keeps both caches exact, keeps every row and cache entry, and adds no sale |
| ImportadorCsv.ConVentaPaso | etl/scripts/import_csv.php:197-246 | recording a valid row keeps the caches exact, keeps every row, and adds exactly its sale under the next key of `ventas`, with the ids its name and reference resolve to |
| ImportadorCsv.TrasFilaPaso | etl/scripts/import_csv.php:179-254 | one row keeps the caches exact and only adds; a failing row adds no sale, a valid one exactly its sale under the next key |
| ImportadorCsv.TrasRegistroPaso | etl/scripts/import_csv.php:124-144 | the same for one record, a blank or mismatched one adding nothing |
| ImportadorCsv.TrasRegistrosCrece | etl/scripts/import_csv.php:121-145 | a run keeps the caches exact and every old row untouched; the keys of `ventas` are the old ones plus one new key per record that adds a sale, following `next` |
| ImportadorCsv.PedidoResuelto | etl/scripts/import_csv.php:227-246 | the row a record will insert, with its ids filled in, is the row `insertVenta` writes |
| ImportadorCsv.VentasDeRegistros | etl/scripts/import_csv.php:121-145 | the sales a run adds are those of its successful records, in order from the old `next`, each with the ids its name and reference resolve to |
| ImportadorCsv.VentasTrasRegistros | etl/scripts/import_csv.php:121-145 | each successful record has its sale under `next` plus the number of successful records before it |
| ImportadorCsv.VentasDeArchivo | etl/scripts/import_csv.php:89-160 | for a readable file with a header, the caches stay exact, every old row is kept, and the rows added to `ventas` are exactly the sales and returns of the lines naming a salesperson and a reference, in file order, one each |
| ImportadorCsv.FallaDejaError | etl/scripts/import_csv.php:250-253 | a failing data line always leaves an error |
| ImportadorCsv.EstadoFinal | etl/scripts/import_csv.php:368 | a run from zero counters ends `completado` exactly when no data line failed |
| ImportadorCsv.CompletadoSiTodasExitosas | etl/scripts/import_csv.php:368 | with consistent counters, a run is `completado` exactly when every processed row succeeded |
| ImportadorCsv.Primeros | etl/scripts/import_csv.php:369 | at most the first hundred errors, in order |
| ImportadorCsv.JoinContiene | etl/scripts/import_csv.php:369 | each joined message can be found in the joined text |
| ImportadorCsv.ErroresGuardados | etl/scripts/import_csv.php:369-384 | each of the first hundred errors appears in the stored error text |
| ImportadorCsv.CsvImporter.constructor | etl/scripts/import_csv.php:24-27 | zero counters, and the caches loaded from the database |
| ImportadorCsv.CsvImporter.LoadCaches | etl/scripts/import_csv.php:32-51 | each cache is the index built by a key-order scan of its table, which resolves exactly the table's keys (`IndexarEsIndice`) |
| ImportadorCsv.CsvImporter.DetectarDelimitador | etl/scripts/import_csv.php:165-174 | the first of `,` `;` tab `|` with the most occurrences in the first line |
| ImportadorCsv.CsvImporter.RegistrarError | etl/scripts/import_csv.php:393-396 | appends the message to the errors; nothing else changes |
| ImportadorCsv.CsvImporter.ObtenerOCrearVendedor | etl/scripts/import_csv.php:259-287 | a cache hit returns the cached key and writes nothing; a miss inserts `NuevoVendedorCsv` under a fresh key and caches it; the cache stays exact |
| ImportadorCsv.CsvImporter.ObtenerOCrearProducto | etl/scripts/import_csv.php:292-319 | the same for products, keyed by reference, inserting `NuevoProductoCsv` |
| ImportadorCsv.CsvImporter.ProcesarFila | etl/scripts/import_csv.php:179-254 | succeeds exactly when `FallaDeFila` finds nothing; on failure, records "Línea n: " with the reason; on success, inserts `NuevaVenta`; the tables and caches become `TrasFila` of the old ones: unchanged without a salesperson, only the salesperson resolved without a reference, otherwise both resolved and the sale inserted |
| ImportadorCsv.CsvImporter.ProcesarFilaConVendedor | etl/scripts/import_csv.php:187-246 | with a salesperson present: the salesperson is resolved or created; the row succeeds exactly when it has a reference, and then its sale is inserted; the tables and caches become `TrasFila` of the old ones |
| ImportadorCsv.CsvImporter.ProcesarProducto | etl/scripts/import_csv.php:190-246 | a missing reference records "Referencia de producto vacía" and writes nothing; otherwise the product is resolved and the sale inserted, the tables and caches becoming `ConVenta` of the old ones |
| ImportadorCsv.CsvImporter.RegistrarVenta | etl/scripts/import_csv.php:197-246 | the product is resolved or created and exactly one `NuevaVenta` row is inserted for it; the tables and caches become `ConVenta` of the old ones |
| ImportadorCsv.CsvImporter.ProcesarLinea | etl/scripts/import_csv.php:121-144 | a blank record is skipped; any other is processed and is one success (one more sale) or one failure (its error); the tables and caches become `TrasRegistro` of the old ones for that record |
| ImportadorCsv.CsvImporter.ContarRegistro | etl/scripts/import_csv.php:129-144 | a non-blank record counts as processed and then as one success or one failure with its error; the tables and caches become `TrasRegistro` of the ones it started from |
| ImportadorCsv.CsvImporter.ProcesarRegistro | etl/scripts/import_csv.php:132-135 | the combined record succeeds exactly when `FallaLinea` finds nothing, records its error otherwise, adds one sale on success, and leaves the tables and caches at `TrasRegistro` of the ones it started from |
| ImportadorCsv.CsvImporter.ProcesarLineas | etl/scripts/import_csv.php:119-145 | the counters grow by the non-blank records, their failures and their errors; each success is one more sale; the tables and caches become `TrasRegistros` of the old ones over the records of the lines, in order |
| ImportadorCsv.CsvImporter.ProcesarArchivo | etl/scripts/import_csv.php:89-160 | succeeds exactly when the file opens and has a header; each failure records its message and writes nothing; on success, the records are processed under the detected delimiter and the trimmed headers, and committed; in every case the tables and caches become `TrasArchivo` of the old ones |
| ImportadorCsv.CsvImporter.RegistrarInicioImportacion | etl/scripts/import_csv.php:348-362 | inserts the `procesando` log row and remembers its key |
| ImportadorCsv.CsvImporter.FinalizarImportacion | etl/scripts/import_csv.php:367-388 | the run's log row gets the counters, the first hundred errors and the final state; with no such row, nothing changes |
| ImportadorCsv.CsvImporter.Importar | etl/scripts/import_csv.php:56-84 | a missing file records "Archivo no encontrado: …" and creates no log row; otherwise the run is logged, processed and closed with its final counters; the tables and caches become `TrasArchivo` of the old ones |
| Text.CountZeroIffAbsent | etl/scripts/import_csv.php:170 | `substr_count` is zero exactly when the needle does not occur in the line |
| ImportadorCsv.PrimerMasFrecuente | etl/scripts/import_csv.php:167-173 | the loop computing the first candidate with the most occurrences |
| ImportadorCsv.Maximo | etl/scripts/import_csv.php:173 | `max` is one of the counts and no count exceeds it |
| ImportadorCsv.Buscar | etl/scripts/import_csv.php:173 | `array_search` gives the first position holding the value |
| ComisionControlador.MensajeLoteCuenta | backend/app/Controllers/ComisionController.php:140 | the number in the batch message reads back as the approved count |
| ComisionControlador.MesActualAceptado | backend/app/Controllers/ComisionController.php:80-83 | the default period, the current month, always passes validation |
| ComisionControlador.Entrecomillar | backend/app/Controllers/ComisionController.php:333-336 | a field is the value between double quotes, with inner quotes doubled |
| ComisionControlador.CierreRecupera | backend/app/Controllers/ComisionController.php:333-336 | an escaped value followed by its closing quote reads back as the value |
| ComisionControlador.LineaRecupera | backend/app/Controllers/ComisionController.php:333-337 | a line of quoted fields joined by commas reads back as its values |
| ComisionControlador.Csv | backend/app/Controllers/ComisionController.php:325-338 | the body starts with the byte-order mark, and is only the mark when there are no rows |
| ComisionControlador.FilaEnLineas | backend/app/Controllers/ComisionController.php:333-338 | each row is written as its own line, between the lines of the rows before and after it |
| ComisionControlador.LineaDeDatosRecupera | backend/app/Controllers/ComisionController.php:333-337 | a row's line ends in a line feed, and without it reads back as the row's values |
| ComisionControlador.EscribirFilas | backend/app/Controllers/ComisionController.php:333-338 | the loop appends exactly `Lineas` of the rows, one line per row in order |
| ComisionControlador.NombreArchivo | backend/app/Controllers/ComisionController.php:317 | the download name is `comisiones_<periodo>.csv` |
| ComisionControlador.ComisionController.Calcular | backend/app/Controllers/ComisionController.php:77-98 | the period defaults to the current month; an invalid period is its error with nothing written; no rule set is the service's error; otherwise success, with the commissions table `TrasLote` of the active salespeople |
| ComisionControlador.ComisionController.Aprobar | backend/app/Controllers/ComisionController.php:104-122 | approves that one id; success exactly when the row changed, else the "could not approve" error |
| ComisionControlador.ComisionController.AprobarLote | backend/app/Controllers/ComisionController.php:128-147 | a missing or non-array `ids` is refused with nothing written; otherwise the ids are approved and the message reports the count |
| ComisionControlador.ComisionController.Pagar | backend/app/Controllers/ComisionController.php:153-174 | marks that one id paid with the notes; success exactly when the row changed, else the "could not mark paid" error |
| ComisionControlador.ComisionController.Recalcular | backend/app/Controllers/ComisionController.php:289-311 | a missing or falsy period is refused with nothing written; an invalid period or a missing rule set is an error; with a valid period and a rule set, a salesperson id gives that salesperson's error message or success, and no id gives success; the commissions table becomes `TrasCalculo` of that salesperson or `TrasLote` of the active salespeople |
| ComisionControlador.ComisionController.ExportarCSV | backend/app/Controllers/ComisionController.php:316-342 | the body becomes `Csv` of the rows; the headers are `text/csv` and an attachment with the period's file name |

## Left out

- Reading files (`fopen`, `fgets`, `fgetcsv`) is an input. A readable file
  is its first line plus a function from delimiter to the parsed header and
  records. `fgetcsv`'s own tokenising is not modelled.
- The importer's records are assumed to have as many fields as the header
  has. With a mismatch, `array_combine` throws a `ValueError`. The `catch
  (Exception)` does not catch it, so the import aborts.
- The delimiter list as written can pick the two-character `'\t'` when a
  first line holds more backslash-`t` pairs than other candidates. PHP 8's
  `fgetcsv` then throws a `ValueError`, which `catch (Exception)` does not
  catch, so the import aborts. The model reads with the corrected list,
  whose candidates are all one character, so this abort is not modelled.
- `intval`, `floatval` and the importer's date formatting (`formatearFecha`)
  are parameters of the importer (`Conversores`). Their parsing of numeric
  prefixes is not modelled.
- The file name is a parameter rather than `basename($filepath)`. The
  global that carries it to `procesarFila` is not modelled.
- Console output (`echo`, `mostrarResumen`), the command-line entry point,
  and `die` in `loadCaches` are not modelled.
- The importer's `catch` that rolls back after a critical error is not
  modelled. No modelled step throws inside that `try`: every row failure
  is caught in `procesarFila`.
- Database failures are not modelled: PDO exceptions, constraint
  violations such as a NULL `parametro_id`, duplicate codes, and
  connection loss.
- The clock is a parameter (`ahora`, `hoy`, `mesActual`). Collation,
  `LIKE` wildcards in the query, floating-point rounding and concurrent
  access are not modelled.
- Calculo.CalcularMontos: amounts are exact `real` numbers, not PHP floats
  or DECIMAL columns.
- The sales summary (`Venta::getResumenPorVendedorPeriodo`) and the active
  rule set (`ParametroComision::getParametrosActivos`) are inputs. The
  `Venta` and `ParametroComision` models, `Database.php` and the routing in
  `index.php` are not part of this model.
- Not modelled, as they compute nothing the modelled operations depend on:
  - from `Comision`: `getById`, `calcularPeriodo`, `getTopVendedores`,
    `getTendencia`, `exportar`;
  - from `Vendedor`: `getById`, `getByNombre`, `getByCodigo`,
    `getComisiones`, `getRanking`;
  - from the service: `obtenerEstadisticas`;
  - from the controller: its list, detail, statistics and Excel-export
    actions.
- Controller responses keep only the message. The other JSON fields and
  the HTTP status codes are not modelled.
- VendedorModel.Aplicar: a NULL for `nombre` or `estado` is not modelled
  as the database would treat it. Those columns are not nullable here, and
  the database would refuse or coerce the value, so the model keeps the
  column's earlier value. NULLs for `email` and `telefono` are modelled.
- ComisionControlador.ComisionController.ExportarCSV: exported values are
  already strings. PHP's conversion of numbers and NULL to text is not
  modelled.
- ComisionControlador.ComisionController.Recalcular: responses keep only
  the message, so the recalculation's payload is not stated.
- ComisionServicio.ComisionService.ActualizarComision: the PHP statement
  is also given the array's `vendedor_id`, `parametro_id` and `periodo`
  keys, which have no placeholder. With PDO this fails with HY093 on every
  rewrite. The batch catches the failure (ComisionService.php:67-69) and
  records an error, so an existing row is never rewritten. The model
  performs the rewrite the statement describes.
- ComisionControlador.ComisionController.Calcular: the batch results in the
  response payload are not stated beyond the success message.

## Findings

| source | as written | input that shows it | evidently intended | confidence | as-written member | corrected member |
|---|---|---|---|---|---|---|
| etl/scripts/import_csv.php:166 | `'\t'` in single quotes is the two characters backslash and `t`, so a tab is never a candidate | a first line `a<TAB>b<TAB>c`: every candidate counts 0 and `,` is chosen. Conversely, a first line with more backslash-`t` pairs than other candidates picks the two-character `'\t'`; PHP 8's `fgetcsv` then throws a `ValueError` (the delimiter must be one character), which `catch (Exception)` does not catch, so the import aborts | a tab delimiter (`"\t"`) is detected for tab-separated files | not executed | ImportadorCsv.TabuladorNoDetectado | ImportadorCsv.CsvImporter.DetectarDelimitador |
| backend/app/Services/ComisionService.php:307-310 | a single-salesperson recalculation passes the `false` from `getParametrosActivos` on as the rule set | no active rule set, salesperson with 100 in sales and no returns: a zero commission computed as "bonus applied". Whether it is stored depends on two failure paths: rewriting an existing row fails with HY093 in `actualizarComision` (lines 161-177), and inserting a new row carries a NULL `parametro_id` (line 130) | fail with the missing-rule-set error, as the batch does at lines 38-41 | not executed | Calculo.SinParametrosBonoVacio | ComisionServicio.ComisionService.RecalcularComisiones |

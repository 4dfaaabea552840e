# Integra POS — a verified model of the point-of-sale core

Integra is a multi-store point-of-sale system. Its Express/MySQL backend and
React frontend share one job: a cashier opens a shift, rings sales into a
cart, splits the total over payment methods, and closes the shift by counting
the drawer against the cash the system expected. This project models that
money-and-inventory core in Dafny and proves what the code promises about it.

- **Sales ledger** (`Ventas`, over the tables of `Ledger`). `POST /ventas` checks the cart and the shift. It then writes, in one transaction, the sale header, one line per item, one payment row per payment and, for a completed sale, the stock decrements. `PUT /ventas/:id/cancelar` marks a sale cancelled and gives its lines back to stock. The store is a `Ledger.Database` object whose fields are the tables. A storage fault is a parameter: `Falla(escritura)` names the write that is rejected. On a fault every table is rolled back and the answer is 500.
- **Shifts and the arqueo report** (`Turnos`). Open, the active-shift query, close (expected cash and difference) and the report: payments by method, sales totals, the ten best-selling products.
- **Frontend state** (`Carrito`, `ModalPago`, `Pos`, `CierreTurno`). The cart context is pure functions over a `Carrito` value. The payment dialog and the POS page are classes whose fields are the React state, with one method per handler. The shift-close page's preview and guard are functions.
- **Small rules** (`Productos`, `Auth`, `Sidebar`, `Schema`). The product catalogue queries, the role and store guards of the auth middleware, the role-filtered menu, and the SQL script splitter.

Money is integer cents. A JavaScript default `x || d` is `Option.GetOr(d)`. An HTTP answer is `Outcome<T>`, which is `Ok(value)` or `Fail(status, message)`, with the source's status codes and messages. SQL `ORDER BY` is a stable insertion sort by a proved total preorder. SQL `=` on a nullable id is `Ledger.SqlEq`, under which NULL equals nothing.

Three behaviours of the code are modelled as written, though they are looser than the rest of the design:
- Cancelling restores stock for every sale that is not already cancelled, temporary sales included.
- With more than one payment row, every row is sent as `mixto`.
- `obtenerTurnoActivo` counts all sales of the shift in every state.

Both of the first two lead to findings below.

## Model

| member | source | states |
|---|---|---|
| Ventas.DetallesDe | backend/controllers/ventasController.js:80-96 | one line row per item, in order; each row's subtotal is quantity × unit price and its total that less the item's discount (default 0) |
| Ventas.PagosDe | backend/controllers/ventasController.js:108-115 | one payment row per supplied payment, in order, with method and amount as given and the reference defaulting to "" |
| Ventas.CalcularSubtotal | backend/controllers/ventasController.js:50-53 | the loop accumulates exactly `Subtotal(items)`, the sum of quantity × unit price |
| Ventas.EscribirLineas | backend/controllers/ventasController.js:80-105 | writes the lines (and for a completed sale the stock decrements) item by item; it reports a fault iff one of its writes is rejected, and otherwise leaves exactly the old tables plus those lines and decrements |
| Ventas.EscribirPagos | backend/controllers/ventasController.js:108-115 | faults iff one of its writes is rejected; otherwise appends exactly `PagosDe` to the payments and changes nothing else |
| Ventas.CrearVentaSpec | backend/controllers/ventasController.js:14-155 | any failure leaves every table as it was; a 400 also leaves the id counter, while a 500 after the header write leaves the header's id used; 400 iff the items are missing or empty or the shift is not open; success iff both checks pass and no write is rejected; success hands out the next sale id |
| Ventas.CrearVenta | backend/controllers/ventasController.js:14-155 | the imperative transaction (header, lines, stock, payments, commit, re-read, rollback) leaves the database and answer that `CrearVentaSpec` gives |
| Ventas.ObtenerDetalleVenta | backend/controllers/ventasController.js:180-219 | 404 iff no sale has the id; otherwise that sale, exactly its lines whose product exists, and exactly its payments (with `DetalleSinFusionar` for how many times each appears) |
| Ventas.DetalleSinFusionar | backend/controllers/ventasController.js:197-207 | each of the sale's lines whose product exists, and each of its payments, appears in the detail exactly as many times as the table holds it: identical rows are not merged, and no other row appears |
| Ventas.ObtenerVentasTurno | backend/controllers/ventasController.js:158-177 | exactly the sales of the shift, newest first: the shift's rows in reverse of the order they were stored |
| Ventas.MarcarCancelada | backend/controllers/ventasController.js:248-251 | only the rows with the id become cancelled; every other row is unchanged |
| Ventas.ReleerCancelada | backend/controllers/ventasController.js:269-275 | the re-read after the update finds the sale as before but cancelled |
| Ventas.CancelarVentaSpec | backend/controllers/ventasController.js:222-284 | failure leaves the tables as they were; 404 iff the sale is unknown; 400 iff it is already cancelled; success returns the sale marked cancelled and leaves shifts, lines and payments as they were |
| Ventas.DevolverStock | backend/controllers/ventasController.js:259-264 | faults iff one of its writes is rejected; otherwise the stock is exactly the old stock with every line's quantity given back |
| Ventas.CancelarVenta | backend/controllers/ventasController.js:222-284 | the imperative transaction leaves the database and answer that `CancelarVentaSpec` gives |
| Ventas.DescontarPorProducto | backend/controllers/ventasController.js:98-104 | after the decrements a product's stock is its old stock less its total quantity in the cart; products not in the cart keep their stock |
| Ventas.ReponerPorProducto | backend/controllers/ventasController.js:259-264 | after the give-back a product's stock is its old stock plus its total quantity over the lines |
| Ventas.CantidadDeLasLineas | backend/controllers/ventasController.js:80-96 | the line rows carry, product by product, exactly the cart's quantities |
| Ventas.SubtotalEsSumaDeLineas | backend/controllers/ventasController.js:50-57 | the header's subtotal equals the sum of its lines' subtotals |
| Ventas.FindVentaNueva | backend/controllers/ventasController.js:121-126 | the re-read of a freshly inserted id finds the new header |
| Ventas.CrearVentaRegistra | backend/controllers/ventasController.js:61-146 | a confirmed sale leaves exactly the tables `Registrar` describes and answers their re-read |
| Ventas.RegistrarPreservaValid | backend/controllers/ventasController.js:61-115 | registering a sale on an open shift keeps the ledger well formed (unique keys, references below the counters, totals consistent) |
| Ventas.LineasNuevasVisibles | backend/controllers/ventasController.js:128-135 | the re-read of the new sale's lines sees only the lines just written |
| Ventas.RelecturaDelRegistro | backend/controllers/ventasController.js:121-146 | the answer is the new header, its visible lines and its payments |
| Ventas.CrearVentaConfirmada | backend/controllers/ventasController.js:14-155 | a confirmed sale: ledger stays valid; header has subtotal = sum of line subtotals and total = subtotal − discount + tip; exactly one header and one line per item appended; shifts untouched |
| Ventas.CrearVentaStock | backend/controllers/ventasController.js:98-104 | each product's stock drops by its cart quantity iff the sale is completed (the default); otherwise stock is unchanged |
| Ventas.CrearVentaPreservaValid | backend/controllers/ventasController.js:14-155 | every outcome of `POST /ventas` keeps the ledger well formed |
| Ventas.CancelarVentaStock | backend/controllers/ventasController.js:254-264 | a cancel adds each product's quantity over the sale's lines back to its stock and leaves every other sale row as it was |
| Ventas.CancelarVentaPreservaValid | backend/controllers/ventasController.js:222-284 | every outcome of a cancel keeps the ledger well formed |
| Ventas.CancelarDosVeces | backend/controllers/ventasController.js:239-242 | a second cancel of the same sale answers 400 and changes nothing |
| Ventas.NuevaVentaPrimera | backend/controllers/ventasController.js:158-177 | after a sale the shift's list has one more row and the new sale first (newest first) |
| Ventas.CancelarEncontrada | backend/controllers/ventasController.js:227-264 | a known, not cancelled sale whose writes all succeed is cancelled and its lines go back to stock |
| Ventas.NuevaVentaEnTablas | backend/controllers/ventasController.js:61-105 | after a confirmed sale its header is found by id and its lines are exactly the lines of its items |
| Ventas.CrearYCancelarDevuelveStock | backend/controllers/ventasController.js:14-284 | creating a completed sale and cancelling it restores every product's stock exactly |
| Ventas.DevolverLoDescontado | backend/controllers/ventasController.js:98-104 | giving back a cart's lines undoes its decrements |
| Ventas.CancelarTemporalInflaStock | backend/controllers/ventasController.js:239 | as written: creating a temporary sale and cancelling it raises the stock of each product it names |
| Ventas.CancelarVentaCorregida | backend/controllers/ventasController.js:222-284 | corrected cancel: only a completed sale gives stock back; others leave stock unchanged |
| Ventas.CrearYCancelarCorregidaDevuelveStock | backend/controllers/ventasController.js:14-284 | with the corrected cancel, create then cancel restores the stock whatever the sale's state |
| Ledger.FindTurno | backend/controllers/turnosController.js:92-96 | the found row has the id; none found iff no row has it |
| Ledger.FindVenta | backend/controllers/ventasController.js:227-235 | the found row has the id; none found iff no row has it |
| Ledger.Database.Rollback | backend/controllers/ventasController.js:148-154 | after a rollback every table is as it was when the transaction began, and the auto-increment counters keep the ids already handed out |
| Turnos.AbrirTurnoSpec | backend/controllers/turnosController.js:4-37 | 400 and no change iff the caller already has an open shift in the store; otherwise appends one open shift with the next id, the caller's store, the given float, the notes or `""`, and no close fields |
| Turnos.AbrirTurno | backend/controllers/turnosController.js:4-37 | the imperative check-and-insert leaves the database and answer that `AbrirTurnoSpec` gives |
| Turnos.ObtenerTurnoActivo | backend/controllers/turnosController.js:40-84 | 404 iff no open shift of the caller in the store; otherwise an open one no later row beats (the most recently opened), with the count and sum of all its sales in any state and its count of temporary sales |
| Turnos.CerrarFilas | backend/controllers/turnosController.js:115-124 | only the rows with the id are closed, with final amount, expected amount, difference and notes; others unchanged |
| Turnos.CerrarTurnoSpec | backend/controllers/turnosController.js:87-132 | failure changes nothing; 404 iff unknown; 400 iff already closed; success closes every row with that id (`CerrarFilas`) with expected = float + cash of the shift's completed sales, difference = counted − expected and the notes or `""`, touching only the shifts table, and answers the closed row |
| Turnos.ReleerCerrado | backend/controllers/turnosController.js:126-127 | the re-read finds the shift closed with the stored amounts |
| Turnos.CerrarTurno | backend/controllers/turnosController.js:87-132 | the imperative close, which answers the row it re-reads after the update, leaves the database and answer that `CerrarTurnoSpec` gives |
| Turnos.CerrarAbierto | backend/controllers/turnosController.js:96-128 | a shift that is found and not closed is always closed successfully |
| Turnos.Grupos | backend/controllers/turnosController.js:151-160 | one group per method that some counted payment used, and no other; each group's total is the sum and its count the number of distinct sales of that method's payments; the groups follow the order of the methods and list each method once |
| Turnos.Totales | backend/controllers/turnosController.js:163-172 | the count is the number of sales, and subtotal, discount, tip and total are each that column summed over exactly those sales |
| Turnos.Distintos | backend/controllers/turnosController.js:175-187 | the product ids, each once |
| Turnos.IdsDe | backend/controllers/turnosController.js:175-187 | the product id of each line, in order |
| Turnos.Agrupar | backend/controllers/turnosController.js:175-187 | one group per product sold, with that product's summed quantity and amount, and no two groups for one product |
| Turnos.MasVendidoPrimeroEsPreorden | backend/controllers/turnosController.js:185 | `ORDER BY cantidad_vendida DESC` is a total preorder |
| Turnos.ProductosVendidos | backend/controllers/turnosController.js:175-187 | ten groups, or all of them when fewer (then every group is listed), each product at most once, sorted by quantity descending, all real groups, none selling less than a group left out |
| Turnos.DiezPrimeros | backend/controllers/turnosController.js:185-186 | the first ten after sorting (or all, when fewer) are sorted, come from the groups, each no more often than there (so distinct ids stay distinct), are every group when there are at most ten, and outsell every group left out |
| Turnos.DiezPrimerosDeLosGrupos | backend/controllers/turnosController.js:185-186 | the top ten is a sub-multiset of the groups, keeps ids distinct, and is all of the groups when there are at most ten |
| Turnos.IdsDistintosEnParte | backend/controllers/turnosController.js:180-184 | part of a grouping with distinct product ids has distinct ids |
| Turnos.ObtenerArqueo | backend/controllers/turnosController.js:135-198 | 404 iff the shift is unknown; otherwise that shift, the method groups of its counted payments in method order with no method twice, the totals over exactly its completed sales and its best-selling products |
| Turnos.AbrirTurnoPreserva | backend/controllers/turnosController.js:10-23 | opening keeps the ledger valid and at most one open shift per cashier and store |
| Turnos.AbrirYConsultar | backend/controllers/turnosController.js:19-68 | the shift just opened is the active one, with no sales |
| Turnos.SinTiendaNuncaActivo | backend/controllers/turnosController.js:7-17 | with no store in the token the duplicate check never fires and no active shift is ever found |
| Turnos.CerrarTurnoPreserva | backend/controllers/turnosController.js:87-132 | closing keeps the ledger valid and the one-open-shift rule |
| Turnos.FilasTrasCierre | backend/controllers/turnosController.js:115-124 | after a close every shift keeps its id and every row still open is unchanged |
| Turnos.CierreSoloCambiaFilas | backend/controllers/turnosController.js:115-124 | a close changes only the shifts table |
| Turnos.CierraSinAbrir | backend/controllers/turnosController.js:115-124 | replacing rows without opening any keeps validity and the one-open-shift rule |
| Turnos.CerradoNoAdmiteVentas | backend/controllers/ventasController.js:36-44 | once a shift is closed, any sale on it is refused with 400 and changes nothing |
| Turnos.CerrarDosVeces | backend/controllers/turnosController.js:100-102 | a closed shift cannot be closed again (400, no change); there is no way back to open |
| Turnos.SumaPorMetodo | backend/controllers/turnosController.js:151-160 | splitting payments by the four methods loses no amount |
| Turnos.SumaGruposAppend | backend/controllers/turnosController.js:151-160 | group sums add over concatenation |
| Turnos.GrupoSuma | backend/controllers/turnosController.js:151-160 | a method's group contributes exactly that method's payments |
| Turnos.ArqueoCuadraCobros | backend/controllers/turnosController.js:151-160 | the per-method totals add up to all payments of the shift's completed sales |
| Turnos.TotalesCuadran | backend/controllers/turnosController.js:163-172 | summed totals = summed subtotals − discounts + tips when each sale satisfies it |
| Turnos.ArqueoTotalesCuadran | backend/controllers/turnosController.js:163-172 | in the report the shift's total is its subtotal less discounts plus tips |
| Carrito.SumarA | frontend/src/context/CarritoContext.jsx:15-19 | lines of the product gain the quantity; others unchanged; length kept |
| Carrito.FijarCantidad | frontend/src/context/CarritoContext.jsx:40-45 | lines of the product get the quantity; others unchanged; length kept |
| Carrito.AgregarItem | frontend/src/context/CarritoContext.jsx:11-32 | a product already in the cart gains the units on its line only; a new one is appended with its price, the quantity and no discount; other fields kept |
| Carrito.EliminarItem | frontend/src/context/CarritoContext.jsx:49-51 | exactly the product's lines go, the rest keep their order |
| Carrito.ActualizarCantidad | frontend/src/context/CarritoContext.jsx:34-47 | a quantity ≤ 0 is `EliminarItem`; otherwise only that product's lines get the quantity |
| Carrito.LimpiarCarrito | frontend/src/context/CarritoContext.jsx:53-58 | empty lines, discount 0, tip 0, client "" |
| Carrito.CargarOrden | frontend/src/context/CarritoContext.jsx:69-74 | every field replaced from the order, missing ones defaulting to [], 0, 0, "" |
| Carrito.SinLineaSinCantidad | frontend/src/context/CarritoContext.jsx:11-32 | a product with no line has quantity 0 |
| Carrito.AgregarPreservaUnaLinea | frontend/src/context/CarritoContext.jsx:11-32 | adding keeps at most one line per product |
| Carrito.EliminarYActualizarPreservanUnaLinea | frontend/src/context/CarritoContext.jsx:34-51 | removing and updating keep at most one line per product |
| Carrito.AgregarCantidad | frontend/src/context/CarritoContext.jsx:11-32 | adding raises only that product's quantity, by the amount |
| Carrito.EliminarCantidadDe | frontend/src/context/CarritoContext.jsx:49-51 | after removal the product's quantity is 0 and every other product's is unchanged |
| Carrito.ActualizarCantidadDe | frontend/src/context/CarritoContext.jsx:34-47 | updating sets that product's quantity (0 when ≤ 0) and leaves the others |
| Carrito.CalcularSubtotal | frontend/src/context/CarritoContext.jsx:60-62 | the sum of price × quantity over the lines; `SubtotalNoNegativo` bounds it, `SubtotalAlFinal`, `SubtotalSumar` and `AgregarSubtotal` state how it moves, and `Pos.SubtotalDeLasLineas` that the backend computes the same sum |
| Carrito.SubtotalNoNegativo | frontend/src/context/CarritoContext.jsx:60-62 | with no negative price or quantity the subtotal is not negative |
| Carrito.CalcularTotal | frontend/src/context/CarritoContext.jsx:64-67 | subtotal less discount plus tip: the subtotal itself with no discount and no tip, never negative while the discount stays within the subtotal and the tip is not negative, never above subtotal plus tip when the discount is not negative; `AgregarSubtotal`, `LimpiarVacio` and `Pos.VentaDelCarrito` state it against adds, clears and the stored sale |
| Carrito.AgregarSubtotal | frontend/src/context/CarritoContext.jsx:60-67 | adding raises subtotal and total by price × quantity |
| Carrito.LimpiarVacio | frontend/src/context/CarritoContext.jsx:53-74 | a cleared cart totals 0, and loading an empty order is clearing |
| ModalPago.TotalPagos | frontend/src/components/POS/ModalPago.jsx:10-12 | the sum of the rows' amounts, never negative when no amount is; `TotalAlFinal`, `TotalPorMontos`, `AgregarCubreTotal` and `EtiquetarConservaTotal` state how it moves |
| ModalPago.FilaRestante | frontend/src/components/POS/ModalPago.jsx:38-47 | the new row is a card row for max(0, total − paid), zero iff already covered |
| ModalPago.SinFila | frontend/src/components/POS/ModalPago.jsx:49-53 | exactly row i is removed, the others keep their order |
| ModalPago.Etiquetar | frontend/src/components/POS/ModalPago.jsx:55-70 | amounts and references kept; more than one row makes every method mixto; a single row is sent unchanged |
| ModalPago.Dialogo.constructor | frontend/src/components/POS/ModalPago.jsx:5-8 | one cash row for the whole total, change 0 |
| ModalPago.Dialogo.ActualizarMonto | frontend/src/components/POS/ModalPago.jsx:14-24 | only row i's amount changes (0 when it does not parse); on a cash row the change becomes max(0, paid − total), never negative |
| ModalPago.Dialogo.ActualizarReferencia | frontend/src/components/POS/ModalPago.jsx:26-30 | only row i's reference changes |
| ModalPago.Dialogo.CambiarMetodo | frontend/src/components/POS/ModalPago.jsx:32-36 | only row i's method changes; amounts and change untouched |
| ModalPago.Dialogo.AgregarMetodoPago | frontend/src/components/POS/ModalPago.jsx:38-47 | appends `FilaRestante`; afterwards the rows cover the total |
| ModalPago.Dialogo.EliminarMetodoPago | frontend/src/components/POS/ModalPago.jsx:49-53 | no-op on one row, so never empty; otherwise removes exactly row i |
| ModalPago.Dialogo.HandleConfirmar | frontend/src/components/POS/ModalPago.jsx:55-70 | refuses iff paid < total; otherwise passes the relabelled rows, which still cover the total, and the change |
| ModalPago.AgregarCubreTotal | frontend/src/components/POS/ModalPago.jsx:38-47 | after adding a row the rows pay at least the total, exactly the total if they paid no more before |
| ModalPago.EtiquetarConservaTotal | frontend/src/components/POS/ModalPago.jsx:64-67 | relabelling does not change what the rows pay |
| CierreTurno.VentasEfectivo | frontend/src/pages/CierreTurno.jsx:87 | the total of the first cash group, or 0 when there is none |
| CierreTurno.MontoEsperado | frontend/src/pages/CierreTurno.jsx:88 | the opening float plus the first cash group's total, or the float alone when the report has no cash group; `EsperadoDelArqueo` shows it is the backend's expected cash |
| CierreTurno.Diferencia | frontend/src/pages/CierreTurno.jsx:89 | counted − expected, and 0 while the amount is blank |
| CierreTurno.Clasificar | frontend/src/pages/CierreTurno.jsx:286-309 | Cuadrado iff 0, Sobrante iff > 0, Faltante iff < 0; "+" shown iff positive |
| CierreTurno.PanelVisible | frontend/src/pages/CierreTurno.jsx:286-309 | the panel appears iff an amount was typed, classifying its difference |
| CierreTurno.HandleCerrarTurno | frontend/src/pages/CierreTurno.jsx:43-73 | a request is sent iff the amount is filled and the cashier confirms, carrying the amount and notes |
| CierreTurno.VentasEfectivoDelArqueo | frontend/src/pages/CierreTurno.jsx:87 | the report's cash group is the cash the backend's close counts |
| CierreTurno.EsperadoDelArqueo | frontend/src/pages/CierreTurno.jsx:88 | the page's expected cash is the backend's formula (turnosController.js:112) |
| CierreTurno.CierreGuardaVistaPrevia | frontend/src/pages/CierreTurno.jsx:60-63 | the close the page sends for an open shift stores the previewed expected cash and difference |
| CierreTurno.FindTurnoUnico | frontend/src/pages/CierreTurno.jsx:27-41 | in a valid ledger a shift row is the one its id finds |
| CierreTurno.ActivoConArqueo | frontend/src/pages/CierreTurno.jsx:27-41 | the page's active shift is open and has a report |
| Pos.LineasDe | frontend/src/pages/POS.jsx:76 | the cart's lines, one request item each, in order |
| Pos.PagosDe | frontend/src/pages/POS.jsx:79 | the dialog's rows, one request payment each, in order |
| Pos.DatosVenta | frontend/src/pages/POS.jsx:72-81 | the request carries the cashier, the active shift, the cart's items, discount, tip and client, the payments and state completada |
| Pos.DatosOrden | frontend/src/pages/POS.jsx:112-121 | the saved order loads back into the same cart |
| Pos.PuntoDeVenta.constructor | frontend/src/pages/POS.jsx:31-40 | the page starts with an empty cart, no shift, no dialog, no ticket |
| Pos.PuntoDeVenta.VerificarTurno | frontend/src/pages/POS.jsx:42-50 | an active shift is stored; without one the page goes to shift opening; nothing else changes |
| Pos.PuntoDeVenta.HandleAgregarProducto | frontend/src/pages/POS.jsx:52-58 | stock ≤ 0 leaves the cart; otherwise one unit is added; nothing else changes |
| Pos.PuntoDeVenta.HandleProcesarPago | frontend/src/pages/POS.jsx:60-66 | the dialog opens iff the cart is not empty |
| Pos.PuntoDeVenta.HandleConfirmarVenta | frontend/src/pages/POS.jsx:68-100 | sends `DatosVenta` for the active shift to `POST /ventas`; on success the cart is cleared, the dialog closed and the ticket kept with the change; on failure the cart stays |
| Pos.PuntoDeVenta.HandleGuardarOrdenTemporal | frontend/src/pages/POS.jsx:102-130 | an order is sent iff the cart is non-empty and a name is given; the cart is cleared only after a successful save |
| Pos.PuntoDeVenta.HandleCargarOrden | frontend/src/pages/POS.jsx:150-152 | the cart becomes the order's data and the list closes |
| Pos.GuardarYCargar | frontend/src/pages/POS.jsx:102-152 | saving a cart and loading it back gives the same cart |
| Pos.SubtotalDeLasLineas | frontend/src/pages/POS.jsx:72-81 | the backend's subtotal of the sent lines is the cart's subtotal |
| Pos.VentaDelCarrito | frontend/src/pages/POS.jsx:68-100 | the stored sale is completed and has the cart's subtotal and total |
| Pos.CarritoVacioRechazado | backend/controllers/ventasController.js:30-33 | an empty cart's request is refused with 400 and changes nothing |
| Pos.SumaMontosAppend | backend/controllers/turnosController.js:105-110 | the cash sum adds over concatenation |
| Pos.EfectivoTrasVenta | backend/controllers/turnosController.js:105-110 | a completed sale raises the shift's counted cash by exactly its cash-labelled payments |
| Pos.CobrosAnteriores | backend/controllers/turnosController.js:105-110 | appending a sale does not change which older payments count as cash |
| Pos.CobrosAnterioresUnoAUno | backend/controllers/turnosController.js:105-110 | each older payment counts as cash the same before and after the sale |
| Pos.VentaAnterior | backend/controllers/turnosController.js:105-110 | appending another sale does not change whether a sale is a completed one of the shift |
| Pos.CobrosNuevos | backend/controllers/turnosController.js:105-110 | the new sale's payments count as cash iff labelled efectivo |
| Pos.CobrosNuevosUnoAUno | backend/controllers/turnosController.js:105-110 | each new payment counts as cash iff labelled efectivo |
| Pos.EfectivoEnviado | frontend/src/pages/POS.jsx:79 | the cash the rows carry reaches the payment rows unchanged |
| Pos.EtiquetadoSinEfectivo | frontend/src/components/POS/ModalPago.jsx:64-67 | relabelled split rows carry no efectivo payment |
| Pos.MixtoOcultaEfectivo | frontend/src/components/POS/ModalPago.jsx:64-67 | as written: a split-payment sale adds nothing to the shift's expected cash |
| Pos.MixtoOcultaEfectivoEjemplo | frontend/src/components/POS/ModalPago.jsx:64-67 | as written: rows [efectivo 50, tarjeta 50] carry 50 in cash, after relabelling 0 |
| Pos.EtiquetarPorFila | frontend/src/components/POS/ModalPago.jsx:55-70 | corrected labelling: each row keeps its own method and amount |
| Pos.EfectivoLlegaAlCierre | backend/controllers/turnosController.js:105-112 | corrected: the cash rows of a sale raise the expected cash by their amount |
| Productos.OrdenPorNombre | backend/controllers/productosController.js:28 | ordering by name is a total preorder for products and categories |
| Productos.ObtenerProductos | backend/controllers/productosController.js:4-44 | exactly the active products matching the search (code or name contains it, or barcode equals it) and category, each as often as in the table, ordered by name |
| Productos.BuscarProducto | backend/controllers/productosController.js:47-74 | 404 iff no active product has the code or barcode; otherwise the first such product |
| Productos.ObtenerCategorias | backend/controllers/productosController.js:77-87 | exactly the active categories, ordered by name |
| Productos.InactivoInvisible | backend/controllers/productosController.js:12 | an inactive product is never listed nor found |
| Productos.SinFiltros | backend/controllers/productosController.js:12-26 | without filters the list is every active product |
| Productos.CategoriaEstrecha | backend/controllers/productosController.js:23-26 | the category filter keeps exactly the listed products of that category |
| Auth.RolDe | backend/middleware/auth.js:22-53 | the role a stored name denotes, as the `rol === '…'` comparisons read it: one of the four known roles for its name, `Otro` iff the name is none of them, and the name recovered by `NombreDe` |
| Auth.TokenDe | backend/middleware/auth.js:5 | the bearer token is the second space-separated piece of the header, and there is none when the header is missing or has fewer than two pieces |
| Auth.VerificarToken | backend/middleware/auth.js:4-18 | no or empty token gives 401 "Token no proporcionado"; passes iff a token is present and verifies; every refusal is 401 |
| Auth.VerificarSuperAdmin | backend/middleware/auth.js:21-26 | passes iff the role is super_admin, else 403 |
| Auth.VerificarAdmin | backend/middleware/auth.js:29-34 | passes iff the role is administrador or super_admin, else 403 |
| Auth.FiltrarPorTienda | backend/middleware/auth.js:38-47 | no store filter iff super_admin and neither query nor body names a store; otherwise the user's own store |
| Auth.VerificarAccesoTienda | backend/middleware/auth.js:50-64 | passes iff super_admin or the resource's store is the user's, else 403 |
| Auth.SinTokenNoVerifica | backend/middleware/auth.js:5-9 | without a token the answer is 401 whatever the verifier would say |
| Auth.TokenBearer | backend/middleware/auth.js:5 | "Bearer t" yields t when t has no space |
| Auth.SuperAdminEsAdmin | backend/middleware/auth.js:21-34 | whoever passes the super-admin guard passes the admin guard |
| Auth.TiendaPropia | backend/middleware/auth.js:38-64 | a user who is not super_admin is always filtered to their own store, and has access to it |
| Auth.SuperAdminConTienda | backend/middleware/auth.js:38-47 | a super_admin whose request names a store is still filtered to their own store, not the one named |
| Sidebar.MenuItemsFiltrados | frontend/src/components/Sidebar.jsx:72-74 | an entry is shown iff its roles include the user's, in table order |
| Sidebar.Visible | frontend/src/components/Sidebar.jsx:72-74 | a table entry is shown iff its roles include the role |
| Sidebar.Exclusivas | frontend/src/components/Sidebar.jsx:27-70 | Dashboard shows for all four roles; Tiendas iff super_admin; Configuración iff administrador |
| Sidebar.FiltrarCabeza | frontend/src/components/Sidebar.jsx:72-74 | the head is kept iff it passes, then the rest is filtered |
| Sidebar.FiltrarSolo | frontend/src/components/Sidebar.jsx:72-74 | a filter that keeps one entry only yields that entry |
| Sidebar.FiltrarPrimeroY | frontend/src/components/Sidebar.jsx:72-74 | a filter that keeps an entry first and then one more yields those two |
| Sidebar.MenuCajero | frontend/src/components/Sidebar.jsx:27-70 | a cajero sees exactly Dashboard and Punto de Venta |
| Sidebar.MenuSuperAdmin | frontend/src/components/Sidebar.jsx:27-70 | a super_admin sees exactly Dashboard and Tiendas |
| Sidebar.MenuOtro | frontend/src/components/Sidebar.jsx:27-70 | a role outside the four sees nothing |
| Text.TrimStart | backend/database/schema.js:21 | drops exactly the leading whitespace |
| Text.TrimEnd | backend/database/schema.js:21 | drops exactly the trailing whitespace |
| Text.Trim | backend/database/schema.js:21 | the result is a slice of the input with only whitespace before and after it, and it neither starts nor ends with whitespace |
| Text.SplitOn | backend/database/schema.js:20 | at least one piece, no piece contains the separator, and joining them back gives the input |
| Text.SplitWithoutSeparator | backend/database/schema.js:20 | a text without the separator splits into itself |
| Text.SplitAtFirstSeparator | backend/database/schema.js:20 | splitting at the first separator yields the piece before it and the split of the rest |
| Text.LexLeTotal | backend/controllers/productosController.js:28 | string order is total |
| Text.LexLeTransitive | backend/controllers/productosController.js:28 | string order is transitive |
| Schema.TrimAll | backend/database/schema.js:21 | each piece trimmed, in order |
| Schema.Statements | backend/database/schema.js:19-22 | every statement is non-empty, has no ';', is trimmed and does not start with "--"; every executable piece is kept; order is the text's |
| Schema.PiecesClean | backend/database/schema.js:20-22 | the kept pieces of a split are clean |
| Schema.PiecesKept | backend/database/schema.js:22 | every trimmed piece that is executable is kept |
| Schema.TrimAllCons | backend/database/schema.js:21 | trimming distributes over the first piece |
| Schema.SplitFirstPiece | backend/database/schema.js:20-21 | the first piece is split off and trimmed before the rest |
| Schema.CommentedPieceDropped | backend/database/schema.js:22 | a piece starting with "--" is dropped whole, even with SQL after the comment line |
| Schema.EmptyPieceDropped | backend/database/schema.js:21-22 | a piece that is blank once trimmed is dropped |
| Schema.LastPiece | backend/database/schema.js:19-22 | the text after the last `;` is the last statement when it holds SQL, and adds nothing otherwise |
| Schema.ExecutablePieceKept | backend/database/schema.js:22 | an executable piece becomes the next statement |

## Left out

- Database plumbing is not modelled: the connection pool, `getConnection`/`release`, the query I/O, the statement-execution loop of `backend/database/schema.js:24-35`, and the reset and seed scripts. A transaction is an atomic update of `Ledger.Tables`, with a storage fault at a chosen write as a parameter. A 500 outside a transaction is not modelled.
- Concurrency is not modelled: the select-then-insert race in `abrirTurno`, and the shift check `crearVenta` makes before its transaction begins. The model is sequential.
- Floating point is not modelled. `parseFloat`, `toFixed` and NaN are outside it; money is integer cents, and a number that does not parse is `None`.
- The clock is not modelled:
  - `generarNumeroVenta` is left out, so the sale number is not modelled;
  - the five-second timer that hides the ticket is left out;
  - `ORDER BY fecha_*` is modelled by insertion order.
- The usuario joins are not modelled. The sale and shift queries join `usuarios` with an inner `JOIN` (backend/controllers/ventasController.js:121-126, 163-169, 185-190; backend/controllers/turnosController.js:45-52, 139-144), and `crearVenta` takes `usuario_id` from the request body unchecked (backend/controllers/ventasController.js:18). The model assumes every `usuarioId` names an existing user. A sale whose user is missing would answer 404 on its detail query and be left out of its shift's list; a shift whose user is missing would not be found as active or for its report.
- The table names are fused. `crearVenta` writes its lines to `ventas_detalle` and its payments to `ventas_pagos` (backend/controllers/ventasController.js:86, 111), and the sale queries read those tables. The shift close and the report only read `pagos` and `detalles_venta` (backend/controllers/turnosController.js:107, 156, 180). The model has one payment table and one line table. Fusing them is what lets a sale's cash payments reach `cerrarTurno` and the report at all; with the tables as named, the close and the report would see none of the payments and lines the POS writes.
- `LIKE` collation and case folding are not modelled; a match is substring containment. A `%` or `_` inside the search term would be a wildcard in SQL; the model treats it as a plain character.
- `Turnos.ProductoVendido` carries the product id, the key the report groups by (`GROUP BY p.id, p.nombre`); the report row itself shows `p.nombre`. Names are not modelled.
- Ledger.Database.Rollback: only the tables are rolled back. The auto-increment counters keep the ids handed out inside the failed transaction, as InnoDB does, so `Ventas.CrearVentaSpec` leaves `nextVentaId` advanced when a write after the header is rejected. When the header write itself is rejected the model does not advance the counter; whether InnoDB loses an id then depends on its lock mode.
- Sort ties are broken by the order of the input rows. The order of `GROUP BY` rows is taken to be the order of the methods' enumeration.
- The number conversion that `obtenerProductos` and `buscarProducto` apply to the returned rows is not modelled; their fields are integers already.
- JWT signature checking and bcrypt are parameters: `Auth.VerificarToken` takes the verifier as a function.
- `Auth.FiltrarPorTienda`: the "query or body carries `tienda_id`" test is two booleans. JavaScript truthiness of the value, such as a store id 0, is not modelled.
- `ordenesController.js` is not part of this model. The POS page's order list is not modelled either: `handleCargarOrdenesTemporales` and `toggleOrdenesTemporales` fetch it. The `DELETE /ordenes/:id` after a load is left out as well; its outcome changes no page state.
- Browser dialogs are parameters. `alert` is not modelled. `prompt` becomes the `nombre` argument and `confirm` the `confirmado` argument. Whether the save request succeeded is the `guardada` argument.
- localStorage and navigation are reduced to state: POS.jsx's own `handleCerrarTurno` only navigates between pages. Beyond that, the page is the `pagina` field.
- `ModalPago.Dialogo.ActualizarMonto`, `ActualizarReferencia` and `CambiarMetodo` require a row index inside the list. The dialog only calls them from its own rows, and an index past the end would throw in the source.
- The menu's icons and the layout are not modelled.
- `CierreTurno.VentasEfectivo` reads the report's cash group as `Turnos.Grupos` builds it. The page's fetch of the active shift and its report (`cargarDatosTurno`) is modelled by `CierreTurno.ActivoConArqueo`.

## Findings

| source | as written | input that shows it | evidently intended | confidence | as-written member | corrected member |
|---|---|---|---|---|---|---|
| frontend/src/components/POS/ModalPago.jsx:64-67 | with more than one row every payment is sent as `mixto`, and the close sums only `efectivo` payments (backend/controllers/turnosController.js:109) | rows [efectivo 50, tarjeta 50] on a completed sale: the shift's expected cash rises by 0, not 50 | each row keeps its own method, so the cash part of a split payment reaches the expected cash | not executed | Pos.MixtoOcultaEfectivo, Pos.MixtoOcultaEfectivoEjemplo | Pos.EtiquetarPorFila, Pos.EfectivoLlegaAlCierre |
| backend/controllers/ventasController.js:239 | cancel refuses only a sale already `cancelada`, then gives every line back to stock | a `temporal` sale of 2 units of product p, then its cancel: p's stock ends 2 above where it began | only a completed sale, which took the stock, gives it back | not executed | Ventas.CancelarTemporalInflaStock | Ventas.CancelarVentaCorregida, Ventas.CrearYCancelarCorregidaDevuelveStock |

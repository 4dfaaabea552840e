/** The point-of-sale page (frontend/src/pages/POS.jsx): the guards in front
    of the cart and the payment dialog, the sale request it builds from the
    cart, and saving and loading temporary orders. The calls to the backend
    are made directly: the sale goes to `Ventas.CrearVenta` and the active
    shift comes from `Turnos.ObtenerTurnoActivo`. */
module Pos {
  import opened Wrappers
  import opened Seqs
  import opened Ledger
  import opened Carrito
  import opened ModalPago
  import Ventas
  import Turnos

  /** The page the cashier is on. */
  datatype Pagina = Caja | AperturaTurno

  /** The receipt shown after a sale: the stored sale and the change. */
  datatype Ticket = Ticket(venta: Ventas.VentaCompleta, cambio: int)

  /** The body of `POST /ordenes`. */
  datatype OrdenTemporal = OrdenTemporal(usuarioId: nat, nombreOrden: string, datos: Orden)

  /** A saved order as `GET /ordenes/usuario/:id` lists it. */
  datatype OrdenGuardada = OrdenGuardada(id: nat, datos: Orden)

  /** A cart line as the sale request carries it. */
  function LineaDe(it: Item): Ventas.Linea {
    Ventas.Linea(it.productoId, it.cantidad, it.precioUnitario, Some(it.descuento))
  }

  function LineasDe(items: seq<Item>): (r: seq<Ventas.Linea>)
    ensures |r| == |items|
    ensures forall i :: 0 <= i < |r| ==> r[i] == LineaDe(items[i])
  {
    seq(|items|, i requires 0 <= i < |items| => LineaDe(items[i]))
  }

  /** A dialog row as the sale request carries it. */
  function PagoDe(f: FilaPago): Ventas.PagoEntrada {
    Ventas.PagoEntrada(f.metodo, f.monto, Some(f.referencia))
  }

  function PagosDe(fs: seq<FilaPago>): (r: seq<Ventas.PagoEntrada>)
    ensures |r| == |fs|
    ensures forall i :: 0 <= i < |r| ==> r[i] == PagoDe(fs[i])
  {
    seq(|fs|, i requires 0 <= i < |fs| => PagoDe(fs[i]))
  }

  /** `ventaData`: the sale request built from the cart and the confirmed
      payments, always `completada` and without notes. */
  function DatosVenta(usuarioId: nat, turnoId: nat, c: Carrito, pagos: seq<FilaPago>): (r: Ventas.Solicitud)
    ensures r.usuarioId == usuarioId && r.turnoId == turnoId && r.estado == Some(Completada) && r.notas.None?
    ensures r.items == Some(LineasDe(c.items)) && r.pagos == Some(PagosDe(pagos))
    ensures r.descuento == Some(c.descuento) && r.propina == Some(c.propina) && r.clienteNombre == Some(c.clienteNombre)
  {
    Ventas.Solicitud(usuarioId, turnoId, Some(c.clienteNombre), Some(LineasDe(c.items)), Some(c.descuento),
                     Some(c.propina), Some(PagosDe(pagos)), None, Some(Completada))
  }

  /** `datos_orden`: the whole cart. */
  function DatosOrden(c: Carrito): (r: Orden)
    ensures CargarOrden(r) == c
  {
    Orden(Some(c.items), Some(c.descuento), Some(c.propina), Some(c.clienteNombre))
  }

  class PuntoDeVenta {
    const usuarioId: nat
    var carrito: Carrito
    var turnoActivo: Option<Turnos.TurnoActivo>
    var mostrarModalPago: bool
    var mostrarOrdenesTemporales: bool
    var ventaCompletada: Option<Ticket>
    var pagina: Pagina

    constructor (usuarioId: nat)
      ensures this.usuarioId == usuarioId && carrito == LimpiarCarrito() && turnoActivo.None?
      ensures !mostrarModalPago && !mostrarOrdenesTemporales && ventaCompletada.None? && pagina == Caja
    {
      this.usuarioId := usuarioId;
      carrito := LimpiarCarrito();
      turnoActivo := None;
      mostrarModalPago, mostrarOrdenesTemporales := false, false;
      ventaCompletada := None;
      pagina := Caja;
    }

    /** `verificarTurno()`: the caller's active shift in the store of their
        token, or a redirect to the shift-opening page when there is none. */
    method VerificarTurno(db: Database, tiendaId: Option<nat>)
      modifies this
      ensures var a := Turnos.ObtenerTurnoActivo(db.Snapshot(), usuarioId, tiendaId);
        && (a.Ok? ==> turnoActivo == Some(a.value) && pagina == old(pagina))
        && (a.Fail? ==> turnoActivo == old(turnoActivo) && pagina == AperturaTurno)
      ensures carrito == old(carrito) && mostrarModalPago == old(mostrarModalPago)
      ensures mostrarOrdenesTemporales == old(mostrarOrdenesTemporales) && ventaCompletada == old(ventaCompletada)
    {
      var a := Turnos.ObtenerTurnoActivo(db.Snapshot(), usuarioId, tiendaId);
      if a.Ok? {
        turnoActivo := Some(a.value);
      } else {
        pagina := AperturaTurno;
      }
    }

    /** `handleAgregarProducto(producto)`: a product out of stock is refused;
        any other goes to the cart, one unit at a time. */
    method HandleAgregarProducto(p: Producto)
      modifies this
      ensures p.stock <= 0 ==> carrito == old(carrito)
      ensures p.stock > 0 ==> carrito == AgregarItem(old(carrito), p, 1)
      ensures turnoActivo == old(turnoActivo) && mostrarModalPago == old(mostrarModalPago) && pagina == old(pagina)
      ensures mostrarOrdenesTemporales == old(mostrarOrdenesTemporales) && ventaCompletada == old(ventaCompletada)
    {
      if p.stock <= 0 {
        return;
      }
      carrito := AgregarItem(carrito, p, 1);
    }

    /** `handleProcesarPago()`: the payment dialog opens only on a non-empty cart. */
    method HandleProcesarPago()
      modifies this
      ensures mostrarModalPago == (old(mostrarModalPago) || |carrito.items| > 0)
      ensures carrito == old(carrito) && turnoActivo == old(turnoActivo) && pagina == old(pagina)
      ensures mostrarOrdenesTemporales == old(mostrarOrdenesTemporales) && ventaCompletada == old(ventaCompletada)
    {
      if |carrito.items| == 0 {
        return;
      }
      mostrarModalPago := true;
    }

    /** `handleConfirmarVenta(pagos, cambio)`: posts the sale built from the
        cart. On success the receipt is shown, the dialog closes and the cart
        is cleared; on an error answer nothing on the page changes. Without an
        active shift the request cannot be built (`None`) and nothing is sent. */
    method HandleConfirmarVenta(db: Database, pagos: seq<FilaPago>, cambio: int, fallo: Option<Falla>)
      returns (r: Option<Outcome<Ventas.VentaCompleta>>)
      modifies this, db
      ensures old(turnoActivo).None? ==> r.None? && db.Snapshot() == old(db.Snapshot()) && carrito == old(carrito)
      ensures old(turnoActivo).Some? ==>
        var req := DatosVenta(usuarioId, old(turnoActivo).value.turno.id, old(carrito), pagos);
        r.Some? && (db.Snapshot(), r.value) == Ventas.CrearVentaSpec(old(db.Snapshot()), req, fallo)
      ensures r.Some? && r.value.Ok? ==>
        carrito == LimpiarCarrito() && !mostrarModalPago && ventaCompletada == Some(Ticket(r.value.value, cambio))
      ensures !(r.Some? && r.value.Ok?) ==>
        carrito == old(carrito) && mostrarModalPago == old(mostrarModalPago) && ventaCompletada == old(ventaCompletada)
      ensures turnoActivo == old(turnoActivo) && pagina == old(pagina) && mostrarOrdenesTemporales == old(mostrarOrdenesTemporales)
    {
      if turnoActivo.None? {
        return None;
      }
      var req := DatosVenta(usuarioId, turnoActivo.value.turno.id, carrito, pagos);
      ghost var antes := db.Snapshot();
      var resp := Ventas.CrearVenta(db, req, fallo);
      assert (db.Snapshot(), resp) == Ventas.CrearVentaSpec(antes, req, fallo);
      if resp.Ok? {
        ventaCompletada := Some(Ticket(resp.value, cambio));
        mostrarModalPago := false;
        carrito := LimpiarCarrito();
      }
      r := Some(resp);
    }

    /** `handleGuardarOrdenTemporal()`: needs a non-empty cart and a name (the
        prompt's answer, `None` when cancelled). Returns the order sent, if
        any; `guardada` is whether the server stored it, and only then is the
        cart cleared. */
    method HandleGuardarOrdenTemporal(nombre: Option<string>, guardada: bool) returns (enviada: Option<OrdenTemporal>)
      modifies this
      ensures enviada.Some? <==> |old(carrito.items)| > 0 && nombre.Some? && nombre.value != ""
      ensures enviada.Some? ==> enviada.value == OrdenTemporal(usuarioId, nombre.value, DatosOrden(old(carrito)))
      ensures carrito == (if enviada.Some? && guardada then LimpiarCarrito() else old(carrito))
      ensures turnoActivo == old(turnoActivo) && mostrarModalPago == old(mostrarModalPago) && pagina == old(pagina)
      ensures mostrarOrdenesTemporales == old(mostrarOrdenesTemporales) && ventaCompletada == old(ventaCompletada)
    {
      if |carrito.items| == 0 {
        return None;
      }
      if nombre.None? || nombre.value == "" {
        return None;
      }
      enviada := Some(OrdenTemporal(usuarioId, nombre.value, DatosOrden(carrito)));
      if guardada {
        carrito := LimpiarCarrito();
      }
    }

    /** `handleCargarOrden(orden)`: the cart becomes the saved order and the
        list of orders closes. */
    method HandleCargarOrden(orden: OrdenGuardada)
      modifies this
      ensures carrito == CargarOrden(orden.datos) && !mostrarOrdenesTemporales
      ensures turnoActivo == old(turnoActivo) && mostrarModalPago == old(mostrarModalPago) && pagina == old(pagina)
      ensures ventaCompletada == old(ventaCompletada)
    {
      carrito := CargarOrden(orden.datos);
      mostrarOrdenesTemporales := false;
    }
  }

  // How the page's data reaches the backend.

  /** An order saved and loaded again is the cart it was saved from. */
  lemma GuardarYCargar(c: Carrito, usuarioId: nat, nombre: string, id: nat)
    ensures CargarOrden(OrdenGuardada(id, OrdenTemporal(usuarioId, nombre, DatosOrden(c)).datos).datos) == c
  {
  }

  lemma {:induction false} SubtotalDeLasLineas(items: seq<Item>)
    ensures Ventas.Subtotal(LineasDe(items)) == CalcularSubtotal(items)
  {
    if items != [] {
      var init := items[..|items| - 1];
      var y := items[|items| - 1];
      UltimaLinea(items);
      SubtotalDeLasLineas(init);
      assert items == init + [y];
      SubtotalAlFinal(init, y);
    }
  }

  /** The backend's subtotal peels off the last line as the cart's does. */
  lemma UltimaLinea(items: seq<Item>)
    requires items != []
    ensures var y := items[|items| - 1];
      Ventas.Subtotal(LineasDe(items)) == Ventas.Subtotal(LineasDe(items[..|items| - 1])) + y.precioUnitario * y.cantidad
  {
    var ls := LineasDe(items);
    assert ls[..|items| - 1] == LineasDe(items[..|items| - 1]);
  }

  /** A sale the backend accepts from the page is stored completed, with the
      cart's subtotal and the cart's total. */
  lemma VentaDelCarrito(t: Tables, usuarioId: nat, turnoId: nat, c: Carrito, pagos: seq<FilaPago>, fallo: Option<Falla>)
    requires Valid(t) && Ventas.CrearVentaSpec(t, DatosVenta(usuarioId, turnoId, c, pagos), fallo).1.Ok?
    ensures var v := Ventas.CrearVentaSpec(t, DatosVenta(usuarioId, turnoId, c, pagos), fallo).1.value.venta;
      v.estado == Completada && v.subtotal == CalcularSubtotal(c.items) && v.total == CalcularTotal(c)
  {
    var req := DatosVenta(usuarioId, turnoId, c, pagos);
    Ventas.CrearVentaConfirmada(t, req, fallo);
    SubtotalDeLasLineas(c.items);
  }

  /** An empty cart, had it got past the page's guard, is refused by the backend. */
  lemma CarritoVacioRechazado(t: Tables, usuarioId: nat, turnoId: nat, c: Carrito, pagos: seq<FilaPago>, fallo: Option<Falla>)
    requires c.items == []
    ensures Ventas.CrearVentaSpec(t, DatosVenta(usuarioId, turnoId, c, pagos), fallo) == (t, Fail(400, Ventas.SinItems))
  {
  }

  // The cash of a split payment and the shift close.

  lemma {:induction false} SumaMontosAppend(a: seq<Pago>, b: seq<Pago>)
    ensures Turnos.SumaMontos(a + b) == Turnos.SumaMontos(a) + Turnos.SumaMontos(b)
  {
    if a != [] {
      assert (a + b)[1..] == a[1..] + b;
      SumaMontosAppend(a[1..], b);
    } else {
      assert a + b == b;
    }
  }

  /** The cash a completed sale stores is added to its shift's expected cash. */
  lemma EfectivoTrasVenta(t: Tables, req: Ventas.Solicitud, fallo: Option<Falla>)
    requires Valid(t) && Ventas.SeConfirma(t, req, fallo) && req.estado.GetOr(Completada) == Completada
    ensures Turnos.EfectivoDelTurno(Ventas.CrearVentaSpec(t, req, fallo).0, req.turnoId)
         == Turnos.EfectivoDelTurno(t, req.turnoId)
          + Turnos.SumaMontos(Filter(Ventas.PagosDe(t.nextVentaId, req.pagos.GetOr([])), Turnos.DelMetodo(Efectivo)))
  {
    var id := t.nextVentaId;
    var t' := Ventas.Registrar(t, req, req.items.value);
    Ventas.CrearVentaRegistra(t, req, fallo);
    var nuevos := Ventas.PagosDe(id, req.pagos.GetOr([]));
    var v := Ventas.Encabezado(id, req, Ventas.Subtotal(req.items.value));
    assert t'.pagos == t.pagos + nuevos && t'.ventas == t.ventas + [v];
    FilterAppend(t.pagos, nuevos, Turnos.EfectivoCobrado(t'.ventas, req.turnoId));
    CobrosAnteriores(t.ventas, v, t.pagos, req.turnoId);
    CobrosNuevos(t.ventas, v, nuevos, req.turnoId);
    SumaMontosAppend(Filter(t.pagos, Turnos.EfectivoCobrado(t.ventas, req.turnoId)),
                     Filter(nuevos, Turnos.DelMetodo(Efectivo)));
  }

  /** Adding a sale does not change which older payments count as the
      shift's cash. */
  lemma CobrosAnteriores(ventas: seq<Venta>, v: Venta, pagos: seq<Pago>, turnoId: nat)
    requires forall i :: 0 <= i < |pagos| ==> pagos[i].ventaId < v.id
    ensures Filter(pagos, Turnos.EfectivoCobrado(ventas + [v], turnoId))
         == Filter(pagos, Turnos.EfectivoCobrado(ventas, turnoId))
  {
    CobrosAnterioresUnoAUno(ventas, v, pagos, turnoId);
    FilterCongruente(pagos, Turnos.EfectivoCobrado(ventas + [v], turnoId), Turnos.EfectivoCobrado(ventas, turnoId));
  }

  lemma CobrosAnterioresUnoAUno(ventas: seq<Venta>, v: Venta, pagos: seq<Pago>, turnoId: nat)
    requires forall i :: 0 <= i < |pagos| ==> pagos[i].ventaId < v.id
    ensures forall i :: 0 <= i < |pagos| ==>
              Turnos.EfectivoCobrado(ventas + [v], turnoId)(pagos[i]) == Turnos.EfectivoCobrado(ventas, turnoId)(pagos[i])
  {
    forall i | 0 <= i < |pagos|
      ensures Turnos.EfectivoCobrado(ventas + [v], turnoId)(pagos[i]) == Turnos.EfectivoCobrado(ventas, turnoId)(pagos[i])
    {
      VentaAnterior(ventas, v, pagos[i].ventaId, turnoId);
    }
  }

  /** Appending sale `v` does not change whether another sale id is a
      completed sale of the shift. */
  lemma VentaAnterior(ventas: seq<Venta>, v: Venta, ventaId: nat, turnoId: nat)
    requires ventaId != v.id
    ensures DeVentaCompletada(ventas + [v], ventaId, turnoId) == DeVentaCompletada(ventas, ventaId, turnoId)
  {
    var w := ventas + [v];
    if DeVentaCompletada(w, ventaId, turnoId) {
      var k :| 0 <= k < |w| && w[k].id == ventaId && w[k].turnoId == turnoId && w[k].estado == Completada;
      assert k != |ventas|;
      assert w[k] == ventas[k];
    }
    if DeVentaCompletada(ventas, ventaId, turnoId) {
      var k :| 0 <= k < |ventas| && ventas[k].id == ventaId && ventas[k].turnoId == turnoId && ventas[k].estado == Completada;
      assert w[k] == ventas[k];
    }
  }

  /** The payments of a new completed sale of the shift count as its cash
      exactly when they are in cash. */
  lemma CobrosNuevos(ventas: seq<Venta>, v: Venta, nuevos: seq<Pago>, turnoId: nat)
    requires v.turnoId == turnoId && v.estado == Completada
    requires forall i :: 0 <= i < |nuevos| ==> nuevos[i].ventaId == v.id
    ensures Filter(nuevos, Turnos.EfectivoCobrado(ventas + [v], turnoId))
         == Filter(nuevos, Turnos.DelMetodo(Efectivo))
  {
    CobrosNuevosUnoAUno(ventas, v, nuevos, turnoId);
    FilterCongruente(nuevos, Turnos.EfectivoCobrado(ventas + [v], turnoId), Turnos.DelMetodo(Efectivo));
  }

  lemma CobrosNuevosUnoAUno(ventas: seq<Venta>, v: Venta, nuevos: seq<Pago>, turnoId: nat)
    requires v.turnoId == turnoId && v.estado == Completada
    requires forall i :: 0 <= i < |nuevos| ==> nuevos[i].ventaId == v.id
    ensures forall i :: 0 <= i < |nuevos| ==>
              Turnos.EfectivoCobrado(ventas + [v], turnoId)(nuevos[i]) == Turnos.DelMetodo(Efectivo)(nuevos[i])
  {
    assert (ventas + [v])[|ventas|] == v;
  }

  /** The cash rows of the dialog. */
  function FilaEfectivo(f: FilaPago): bool { f.metodo == Efectivo }

  function EfectivoDe(fs: seq<FilaPago>): int {
    TotalPagos(Filter(fs, FilaEfectivo))
  }

  lemma {:induction false} EfectivoEnviado(id: nat, fs: seq<FilaPago>)
    ensures Turnos.SumaMontos(Filter(Ventas.PagosDe(id, PagosDe(fs)), Turnos.DelMetodo(Efectivo))) == EfectivoDe(fs)
  {
    if fs != [] {
      EfectivoEnviado(id, fs[1..]);
      var f := Turnos.DelMetodo(Efectivo);
      var ps := Ventas.PagosDe(id, PagosDe(fs));
      var rest := Ventas.PagosDe(id, PagosDe(fs[1..]));
      assert ps[1..] == rest;
      var fr := Filter(rest, f);
      if FilaEfectivo(fs[0]) {
        assert Filter(ps, f) == [ps[0]] + fr;
        assert ([ps[0]] + fr)[1..] == fr;
      } else {
        assert Filter(ps, f) == fr;
      }
    }
  }

  lemma EtiquetadoSinEfectivo(id: nat, filas: seq<FilaPago>)
    requires |filas| > 1
    ensures Filter(Ventas.PagosDe(id, PagosDe(Etiquetar(filas))), Turnos.DelMetodo(Efectivo)) == []
  {
    FilterNone(Ventas.PagosDe(id, PagosDe(Etiquetar(filas))), Turnos.DelMetodo(Efectivo));
  }

  /** As written, confirming a split payment relabels every row `mixto`, so
      the close counts none of its cash: selling with cash in a split payment
      leaves the shift's expected cash where it was. */
  lemma MixtoOcultaEfectivo(t: Tables, usuarioId: nat, turnoId: nat, c: Carrito, filas: seq<FilaPago>, fallo: Option<Falla>)
    requires Valid(t) && |filas| > 1
    requires Ventas.SeConfirma(t, DatosVenta(usuarioId, turnoId, c, Etiquetar(filas)), fallo)
    ensures Turnos.EfectivoDelTurno(Ventas.CrearVentaSpec(t, DatosVenta(usuarioId, turnoId, c, Etiquetar(filas)), fallo).0, turnoId)
         == Turnos.EfectivoDelTurno(t, turnoId)
  {
    var req := DatosVenta(usuarioId, turnoId, c, Etiquetar(filas));
    EfectivoTrasVenta(t, req, fallo);
    EtiquetadoSinEfectivo(t.nextVentaId, filas);
  }

  /** The smallest case: half the sale in cash, half by card. */
  lemma MixtoOcultaEfectivoEjemplo()
    ensures EfectivoDe([FilaPago(Efectivo, 50, ""), FilaPago(Tarjeta, 50, "")]) == 50
    ensures EfectivoDe(Etiquetar([FilaPago(Efectivo, 50, ""), FilaPago(Tarjeta, 50, "")])) == 0
  {
    var fs := [FilaPago(Efectivo, 50, ""), FilaPago(Tarjeta, 50, "")];
    assert fs[1..] == [fs[1]] && fs[1..][1..] == [];
    assert Filter(fs, FilaEfectivo) == [fs[0]];
    assert [fs[0]][1..] == [];
    assert TotalPagos([fs[0]]) == 50 + TotalPagos([]);
    FilterNone(Etiquetar(fs), FilaEfectivo);
  }

  /** The labelling the close needs: each row keeps its own method, and the
      split shows in there being several rows for one sale. */
  function EtiquetarPorFila(filas: seq<FilaPago>): (r: seq<FilaPago>)
    ensures |r| == |filas|
    ensures forall k :: 0 <= k < |r| ==> r[k].metodo == filas[k].metodo && r[k].monto == filas[k].monto
  {
    filas
  }

  /** With per-row labels the cash of a split payment reaches the shift's
      expected cash exactly. */
  lemma EfectivoLlegaAlCierre(t: Tables, usuarioId: nat, turnoId: nat, c: Carrito, filas: seq<FilaPago>, fallo: Option<Falla>)
    requires Valid(t)
    requires Ventas.SeConfirma(t, DatosVenta(usuarioId, turnoId, c, EtiquetarPorFila(filas)), fallo)
    ensures Turnos.EfectivoDelTurno(Ventas.CrearVentaSpec(t, DatosVenta(usuarioId, turnoId, c, EtiquetarPorFila(filas)), fallo).0, turnoId)
         == Turnos.EfectivoDelTurno(t, turnoId) + EfectivoDe(filas)
  {
    var req := DatosVenta(usuarioId, turnoId, c, EtiquetarPorFila(filas));
    EfectivoTrasVenta(t, req, fallo);
    EfectivoEnviado(t.nextVentaId, EtiquetarPorFila(filas));
  }
}

/** The sales controller (backend/controllers/ventasController.js): creating a
    sale in one transaction (header, lines, stock, payments), listing a
    shift's sales, reading a sale with its lines and payments, and cancelling
    a sale, which gives its stock back. */
module Ventas {
  import opened Wrappers
  import opened Seqs
  import opened Ledger

  /** One element of the request's `items`. */
  datatype Linea = Linea(productoId: nat, cantidad: int, precioUnitario: int, descuento: Option<int>)

  /** One element of the request's `pagos`. */
  datatype PagoEntrada = PagoEntrada(metodo: MetodoPago, monto: int, referencia: Option<string>)

  /** The body of `POST /ventas`; every field the client may omit is optional. */
  datatype Solicitud = Solicitud(
    usuarioId: nat,
    turnoId: nat,
    clienteNombre: Option<string>,
    items: Option<seq<Linea>>,
    descuento: Option<int>,
    propina: Option<int>,
    pagos: Option<seq<PagoEntrada>>,
    notas: Option<string>,
    estado: Option<EstadoVenta>)

  /** A sale header with its lines and payments, as the read endpoints answer it. */
  datatype VentaCompleta = VentaCompleta(venta: Venta, detalles: seq<Detalle>, pagos: seq<Pago>)

  const SinItems := "La venta debe tener al menos un producto"
  const SinTurno := "No hay un turno activo"
  const NoEncontrada := "Venta no encontrada"
  const YaCancelada := "La venta ya está cancelada"

  /** `item.cantidad * item.precio_unitario`. */
  function Importe(it: Linea): int {
    it.cantidad * it.precioUnitario
  }

  /** The subtotal accumulated over the items, left to right. */
  function Subtotal(items: seq<Linea>): int {
    if items == [] then 0 else Subtotal(items[..|items| - 1]) + Importe(items[|items| - 1])
  }

  /** The line row written for one item. */
  function LineaDetalle(ventaId: nat, it: Linea): Detalle {
    var desc := it.descuento.GetOr(0);
    Detalle(ventaId, it.productoId, it.cantidad, it.precioUnitario, Importe(it), desc, Importe(it) - desc)
  }

  /** The line rows written for the items, in order. */
  function DetallesDe(ventaId: nat, items: seq<Linea>): (r: seq<Detalle>)
    ensures |r| == |items|
    ensures forall i :: 0 <= i < |r| ==> r[i] == LineaDetalle(ventaId, items[i])
  {
    if items == [] then [] else DetallesDe(ventaId, items[..|items| - 1]) + [LineaDetalle(ventaId, items[|items| - 1])]
  }

  /** The payment row written for one payment, `referencia || ''`. */
  function PagoFila(ventaId: nat, p: PagoEntrada): Pago {
    Pago(ventaId, p.metodo, p.monto, p.referencia.GetOr(""))
  }

  /** The payment rows written for the payments, in order. */
  function PagosDe(ventaId: nat, ps: seq<PagoEntrada>): (r: seq<Pago>)
    ensures |r| == |ps|
    ensures forall i :: 0 <= i < |r| ==> r[i] == PagoFila(ventaId, ps[i])
  {
    if ps == [] then [] else PagosDe(ventaId, ps[..|ps| - 1]) + [PagoFila(ventaId, ps[|ps| - 1])]
  }

  /** `UPDATE productos SET stock = stock + delta WHERE id = p`: no row changes
      when the product does not exist. */
  function Ajustar(stock: map<nat, int>, p: nat, delta: int): map<nat, int> {
    if p in stock then stock[p := stock[p] + delta] else stock
  }

  /** The stock after the sale's decrements, item by item. */
  function Descontar(stock: map<nat, int>, items: seq<Linea>): (r: map<nat, int>)
    ensures r.Keys == stock.Keys
  {
    if items == [] then stock
    else Ajustar(Descontar(stock, items[..|items| - 1]), items[|items| - 1].productoId, -items[|items| - 1].cantidad)
  }

  /** The stock after the cancelled lines are given back, line by line. */
  function Reponer(stock: map<nat, int>, ds: seq<Detalle>): (r: map<nat, int>)
    ensures r.Keys == stock.Keys
  {
    if ds == [] then stock
    else Ajustar(Reponer(stock, ds[..|ds| - 1]), ds[|ds| - 1].productoId, ds[|ds| - 1].cantidad)
  }

  /** The quantity of product `p` over the items. */
  function CantidadDe(items: seq<Linea>, p: nat): int {
    if items == [] then 0
    else CantidadDe(items[..|items| - 1], p) + (if items[|items| - 1].productoId == p then items[|items| - 1].cantidad else 0)
  }

  /** The quantity of product `p` over line rows. */
  function CantidadDetalles(ds: seq<Detalle>, p: nat): int {
    if ds == [] then 0
    else CantidadDetalles(ds[..|ds| - 1], p) + (if ds[|ds| - 1].productoId == p then ds[|ds| - 1].cantidad else 0)
  }

  /** The sum of the line rows' subtotals. */
  function SumaSubtotales(ds: seq<Detalle>): int {
    if ds == [] then 0 else SumaSubtotales(ds[..|ds| - 1]) + ds[|ds| - 1].subtotal
  }

  /** The number of writes `crearVenta` sends inside its transaction: the
      header, one line per item, one stock update per item when the sale is
      completed, and one row per payment. */
  function Escrituras(items: nat, estado: EstadoVenta, pagos: nat): nat {
    if estado == Completada then 1 + 2 * items + pagos else 1 + items + pagos
  }

  /** The header row written for a request whose items have this subtotal. */
  function Encabezado(id: nat, req: Solicitud, subtotal: int): Venta {
    var desc := req.descuento.GetOr(0);
    var prop := req.propina.GetOr(0);
    Venta(id, req.usuarioId, req.turnoId, req.clienteNombre.GetOr(""), subtotal, desc, prop,
          subtotal - desc + prop, req.estado.GetOr(Completada), req.notas.GetOr(""))
  }

  /** Rows of sale `id`. */
  function DeVenta(id: nat): Detalle -> bool {
    (d: Detalle) => d.ventaId == id
  }

  /** Rows of sale `id` that survive `JOIN productos`. */
  function LineaVisible(id: nat, productos: set<nat>): Detalle -> bool {
    (d: Detalle) => d.ventaId == id && d.productoId in productos
  }

  function PagoDeVenta(id: nat): Pago -> bool {
    (p: Pago) => p.ventaId == id
  }

  function VentaDelTurno(turnoId: nat): Venta -> bool {
    (v: Venta) => v.turnoId == turnoId
  }

  /** `GET /ventas/:id`: the header, its lines whose product exists, and its payments. */
  function ObtenerDetalleVenta(t: Tables, id: nat): (r: Outcome<VentaCompleta>)
    ensures r.Fail? <==> forall i :: 0 <= i < |t.ventas| ==> t.ventas[i].id != id
    ensures r.Fail? ==> r == Fail(404, NoEncontrada)
    ensures r.Ok? ==> r.value.venta in t.ventas && r.value.venta.id == id
    ensures r.Ok? ==> forall d :: d in r.value.detalles <==> d in t.detalles && d.ventaId == id && d.productoId in t.stock
    ensures r.Ok? ==> forall p :: p in r.value.pagos <==> p in t.pagos && p.ventaId == id
  {
    match FindVenta(t.ventas, id)
    case None => Fail(404, NoEncontrada)
    case Some(v) =>
      Ok(VentaCompleta(v, Filter(t.detalles, LineaVisible(id, t.stock.Keys)), Filter(t.pagos, PagoDeVenta(id))))
  }

  /** The detail lists each of the sale's visible lines and each of its
      payments as many times as the tables hold it: identical rows are all
      shown, and nothing else is. */
  lemma DetalleSinFusionar(t: Tables, id: nat)
    requires ObtenerDetalleVenta(t, id).Ok?
    ensures var vc := ObtenerDetalleVenta(t, id).value;
      && (forall d :: multiset(vc.detalles)[d]
                      == if d.ventaId == id && d.productoId in t.stock then multiset(t.detalles)[d] else 0)
      && (forall p :: multiset(vc.pagos)[p] == if p.ventaId == id then multiset(t.pagos)[p] else 0)
  {
    FilterCount(t.detalles, LineaVisible(id, t.stock.Keys));
    FilterCount(t.pagos, PagoDeVenta(id));
  }

  /** `GET /ventas/turno/:turno_id`: the shift's sales, newest first; rows are
      appended in the order they are created, so `ORDER BY fecha_venta DESC`
      lists the shift's rows back to front. */
  function ObtenerVentasTurno(t: Tables, turnoId: nat): (r: seq<Venta>)
    ensures forall v :: v in r <==> v in t.ventas && v.turnoId == turnoId
    ensures var own := Filter(t.ventas, VentaDelTurno(turnoId));
      |r| == |own| && forall i :: 0 <= i < |r| ==> r[i] == own[|own| - 1 - i]
  {
    var own := Filter(t.ventas, VentaDelTurno(turnoId));
    ReverseMembers(own);
    Reverse(own)
  }

  /** The store rejects one of the writes numbered `desde` to `desde + n - 1`. */
  predicate RechazaEntre(fallo: Option<Falla>, desde: nat, n: nat) {
    fallo.Some? && desde <= fallo.value.escritura < desde + n
  }

  /** The tables after the transaction of `crearVenta` commits: the header,
      the lines, the payments, and for a completed sale the stock decrements. */
  function Registrar(t: Tables, req: Solicitud, items: seq<Linea>): Tables {
    var id := t.nextVentaId;
    var estado := req.estado.GetOr(Completada);
    t.(ventas := t.ventas + [Encabezado(id, req, Subtotal(items))],
       detalles := t.detalles + DetallesDe(id, items),
       pagos := t.pagos + PagosDe(id, req.pagos.GetOr([])),
       stock := if estado == Completada then Descontar(t.stock, items) else t.stock,
       nextVentaId := id + 1)
  }

  /** The request passes both checks of `crearVenta`. */
  predicate Aceptable(t: Tables, req: Solicitud) {
    req.items.Some? && |req.items.value| > 0 && TurnoAbierto(t.turnos, req.turnoId)
  }

  /** The request passes both checks and no write of its transaction is rejected. */
  predicate SeConfirma(t: Tables, req: Solicitud, fallo: Option<Falla>) {
    && Aceptable(t, req)
    && !RechazaEntre(fallo, 0, Escrituras(|req.items.value|, req.estado.GetOr(Completada), |req.pagos.GetOr([])|))
  }

  /** The state and the answer of `POST /ventas`. A storage fault at any of the
      transaction's writes rolls every table back and answers 500; once the
      header row was written its id stays used. */
  function CrearVentaSpec(t: Tables, req: Solicitud, fallo: Option<Falla>): (r: (Tables, Outcome<VentaCompleta>))
    ensures r.1.Fail? ==> r.0 == t.(nextVentaId := r.0.nextVentaId)
    ensures r.1.Fail? && r.1.status == 400 ==> r.0 == t
    ensures r.1.Fail? && r.1.status == 500 ==>
              fallo.Some? && r.0.nextVentaId == if fallo.value.escritura == 0 then t.nextVentaId else t.nextVentaId + 1
    ensures r.1.Ok? <==> SeConfirma(t, req, fallo)
    ensures r.1.Fail? && r.1.status == 400 <==> !Aceptable(t, req)
    ensures r.1.Ok? ==> r.0.nextVentaId == t.nextVentaId + 1 && r.1.value.venta.id == t.nextVentaId
  {
    if req.items.None? || |req.items.value| == 0 then (t, Fail(400, SinItems))
    else if !TurnoAbierto(t.turnos, req.turnoId) then (t, Fail(400, SinTurno))
    else
      var items := req.items.value;
      var estado := req.estado.GetOr(Completada);
      var pagos := req.pagos.GetOr([]);
      if RechazaEntre(fallo, 0, Escrituras(|items|, estado, |pagos|)) then
        (if fallo.value.escritura == 0 then t else t.(nextVentaId := t.nextVentaId + 1), Fail(500, fallo.value.mensaje))
      else
        var t' := Registrar(t, req, items);
        assert t'.ventas[|t.ventas|].id == t.nextVentaId;
        (t', ObtenerDetalleVenta(t', t.nextVentaId))
  }

  /** Every row with this id, marked `cancelada`. */
  function MarcarCancelada(vs: seq<Venta>, id: nat): (r: seq<Venta>)
    ensures |r| == |vs|
    ensures forall i :: 0 <= i < |vs| ==> r[i] == if vs[i].id == id then vs[i].(estado := Cancelada) else vs[i]
  {
    if vs == [] then []
    else [if vs[0].id == id then vs[0].(estado := Cancelada) else vs[0]] + MarcarCancelada(vs[1..], id)
  }

  /** The state and the answer of `PUT /ventas/:id/cancelar`. The lines' stock
      is given back whatever state the sale was in. */
  function CancelarVentaSpec(t: Tables, id: nat, fallo: Option<Falla>): (r: (Tables, Outcome<Venta>))
    ensures r.1.Fail? ==> r.0 == t
    ensures r.1.Fail? && r.1.status == 404 <==> FindVenta(t.ventas, id).None?
    ensures r.1.Fail? && r.1.status == 400 <==> FindVenta(t.ventas, id).Some? && FindVenta(t.ventas, id).value.estado == Cancelada
    ensures r.1.Ok? ==> r.1.value == FindVenta(t.ventas, id).value.(estado := Cancelada)
    ensures r.1.Ok? ==> r.0.turnos == t.turnos && r.0.detalles == t.detalles && r.0.pagos == t.pagos
  {
    match FindVenta(t.ventas, id)
    case None => (t, Fail(404, NoEncontrada))
    case Some(v) =>
      if v.estado == Cancelada then (t, Fail(400, YaCancelada))
      else
        var ds := Filter(t.detalles, DeVenta(id));
        if RechazaEntre(fallo, 0, 1 + |ds|) then (t, Fail(500, fallo.value.mensaje))
        else (t.(ventas := MarcarCancelada(t.ventas, id), stock := Reponer(t.stock, ds)), Ok(v.(estado := Cancelada)))
  }

  /** Re-reading a cancelled sale finds it with the new state. */
  lemma {:induction false} ReleerCancelada(vs: seq<Venta>, id: nat)
    requires FindVenta(vs, id).Some?
    ensures FindVenta(MarcarCancelada(vs, id), id) == Some(FindVenta(vs, id).value.(estado := Cancelada))
  {
    if vs[0].id != id {
      ReleerCancelada(vs[1..], id);
    }
  }

  /** The subtotal loop of `crearVenta`. */
  method CalcularSubtotal(items: seq<Linea>) returns (subtotal: int)
    ensures subtotal == Subtotal(items)
  {
    subtotal := 0;
    for i := 0 to |items|
      invariant subtotal == Subtotal(items[..i])
    {
      assert items[..i + 1][..i] == items[..i];
      subtotal := subtotal + items[i].cantidad * items[i].precioUnitario;
    }
    assert items[..|items|] == items;
  }

  /** The line loop of `crearVenta`: one line row per item and, for a completed
      sale, one stock decrement per item; writes are numbered from `desde`.
      It stops at the first rejected write, leaving the tables for the caller
      to roll back. */
  method EscribirLineas(db: Database, ventaId: nat, items: seq<Linea>, completada: bool, fallo: Option<Falla>, desde: nat)
    returns (fallado: bool)
    modifies db
    ensures fallado <==> RechazaEntre(fallo, desde, if completada then 2 * |items| else |items|)
    ensures db.nextTurnoId == old(db.nextTurnoId) && db.nextVentaId == old(db.nextVentaId)
    ensures !fallado ==> db.Snapshot() == old(db.Snapshot()).(
      detalles := old(db.detalles) + DetallesDe(ventaId, items),
      stock := if completada then Descontar(old(db.stock), items) else old(db.stock))
  {
    ghost var t := db.Snapshot();
    var w := desde;
    for i := 0 to |items|
      invariant db.Snapshot() == t.(detalles := t.detalles + DetallesDe(ventaId, items[..i]),
                                    stock := if completada then Descontar(t.stock, items[..i]) else t.stock)
      invariant w == desde + (if completada then 2 * i else i)
      invariant !RechazaEntre(fallo, desde, w - desde)
    {
      assert items[..i + 1][..i] == items[..i];
      assert DetallesDe(ventaId, items[..i + 1]) == DetallesDe(ventaId, items[..i]) + [LineaDetalle(ventaId, items[i])];
      assert Descontar(t.stock, items[..i + 1])
          == Ajustar(Descontar(t.stock, items[..i]), items[i].productoId, -items[i].cantidad);
      if fallo.Some? && fallo.value.escritura == w {
        return true;
      }
      db.detalles := db.detalles + [LineaDetalle(ventaId, items[i])];
      w := w + 1;
      if completada {
        if fallo.Some? && fallo.value.escritura == w {
          return true;
        }
        db.stock := Ajustar(db.stock, items[i].productoId, -items[i].cantidad);
        w := w + 1;
      }
    }
    assert items[..|items|] == items;
    fallado := false;
  }

  /** The payment loop of `crearVenta`, writes numbered from `desde`. */
  method EscribirPagos(db: Database, ventaId: nat, pagos: seq<PagoEntrada>, fallo: Option<Falla>, desde: nat)
    returns (fallado: bool)
    modifies db
    ensures fallado <==> RechazaEntre(fallo, desde, |pagos|)
    ensures db.nextTurnoId == old(db.nextTurnoId) && db.nextVentaId == old(db.nextVentaId)
    ensures !fallado ==> db.Snapshot() == old(db.Snapshot()).(pagos := old(db.pagos) + PagosDe(ventaId, pagos))
  {
    ghost var t := db.Snapshot();
    for k := 0 to |pagos|
      invariant db.Snapshot() == t.(pagos := t.pagos + PagosDe(ventaId, pagos[..k]))
      invariant !RechazaEntre(fallo, desde, k)
    {
      assert pagos[..k + 1][..k] == pagos[..k];
      if fallo.Some? && fallo.value.escritura == desde + k {
        return true;
      }
      db.pagos := db.pagos + [PagoFila(ventaId, pagos[k])];
    }
    assert pagos[..|pagos|] == pagos;
    fallado := false;
  }

  /** `crearVenta`, statement by statement; a rejected write rolls back. */
  method CrearVenta(db: Database, req: Solicitud, fallo: Option<Falla>) returns (r: Outcome<VentaCompleta>)
    modifies db
    ensures (db.Snapshot(), r) == CrearVentaSpec(old(db.Snapshot()), req, fallo)
  {
    if req.items.None? || |req.items.value| == 0 {
      return Fail(400, SinItems);
    }
    if !TurnoAbierto(db.turnos, req.turnoId) {
      return Fail(400, SinTurno);
    }
    var saved := db.Snapshot();
    var items := req.items.value;
    var estado := req.estado.GetOr(Completada);
    var pagos := req.pagos.GetOr([]);
    var subtotal := CalcularSubtotal(items);

    var fallado := fallo.Some? && fallo.value.escritura == 0;
    if !fallado {
      var ventaId := db.nextVentaId;
      db.ventas := db.ventas + [Encabezado(ventaId, req, subtotal)];
      db.nextVentaId := ventaId + 1;
      var n := if estado == Completada then 2 * |items| else |items|;
      fallado := EscribirLineas(db, ventaId, items, estado == Completada, fallo, 1);
      if !fallado {
        fallado := EscribirPagos(db, ventaId, pagos, fallo, 1 + n);
        if !fallado {
          assert db.Snapshot() == Registrar(saved, req, items);
          return ObtenerDetalleVenta(db.Snapshot(), ventaId);
        }
      }
    }
    db.Rollback(saved);
    r := Fail(500, fallo.value.mensaje);
  }

  /** The stock loop of `cancelarVenta`, writes numbered from `desde`. */
  method DevolverStock(db: Database, ds: seq<Detalle>, fallo: Option<Falla>, desde: nat) returns (fallado: bool)
    modifies db
    ensures fallado <==> RechazaEntre(fallo, desde, |ds|)
    ensures db.nextTurnoId == old(db.nextTurnoId) && db.nextVentaId == old(db.nextVentaId)
    ensures !fallado ==> db.Snapshot() == old(db.Snapshot()).(stock := Reponer(old(db.stock), ds))
  {
    ghost var t := db.Snapshot();
    for i := 0 to |ds|
      invariant db.Snapshot() == t.(stock := Reponer(t.stock, ds[..i]))
      invariant !RechazaEntre(fallo, desde, i)
    {
      assert ds[..i + 1][..i] == ds[..i];
      if fallo.Some? && fallo.value.escritura == desde + i {
        return true;
      }
      db.stock := Ajustar(db.stock, ds[i].productoId, ds[i].cantidad);
    }
    assert ds[..|ds|] == ds;
    fallado := false;
  }

  /** `cancelarVenta`, statement by statement; a rejected write rolls back. */
  method CancelarVenta(db: Database, id: nat, fallo: Option<Falla>) returns (r: Outcome<Venta>)
    modifies db
    ensures (db.Snapshot(), r) == CancelarVentaSpec(old(db.Snapshot()), id, fallo)
  {
    var found := FindVenta(db.ventas, id);
    if found.None? {
      return Fail(404, NoEncontrada);
    }
    if found.value.estado == Cancelada {
      return Fail(400, YaCancelada);
    }
    var saved := db.Snapshot();
    var fallado := fallo.Some? && fallo.value.escritura == 0;
    if !fallado {
      db.ventas := MarcarCancelada(db.ventas, id);
      var detalles := Filter(db.detalles, DeVenta(id));
      fallado := DevolverStock(db, detalles, fallo, 1);
      if !fallado {
        ReleerCancelada(saved.ventas, id);
        var releida := FindVenta(db.ventas, id);
        return Ok(releida.value);
      }
    }
    db.Rollback(saved);
    r := Fail(500, fallo.value.mensaje);
  }

  // Properties of the sales endpoints.

  /** After the decrements, each existing product's stock is down by the
      quantity the items name for it. */
  lemma {:induction false} DescontarPorProducto(stock: map<nat, int>, items: seq<Linea>, p: nat)
    requires p in stock
    ensures Descontar(stock, items)[p] == stock[p] - CantidadDe(items, p)
  {
    if items != [] {
      DescontarPorProducto(stock, items[..|items| - 1], p);
    }
  }

  /** After the give-back, each existing product's stock is up by the quantity
      the lines name for it. */
  lemma {:induction false} ReponerPorProducto(stock: map<nat, int>, ds: seq<Detalle>, p: nat)
    requires p in stock
    ensures Reponer(stock, ds)[p] == stock[p] + CantidadDetalles(ds, p)
  {
    if ds != [] {
      ReponerPorProducto(stock, ds[..|ds| - 1], p);
    }
  }

  /** The line rows carry the items' quantities, product by product. */
  lemma {:induction false} CantidadDeLasLineas(id: nat, items: seq<Linea>, p: nat)
    ensures CantidadDetalles(DetallesDe(id, items), p) == CantidadDe(items, p)
  {
    if items != [] {
      var init := items[..|items| - 1];
      CantidadDeLasLineas(id, init, p);
      assert DetallesDe(id, items)[..|items| - 1] == DetallesDe(id, init);
    }
  }

  /** The header's subtotal is the sum of the line rows' subtotals. */
  lemma {:induction false} SubtotalEsSumaDeLineas(id: nat, items: seq<Linea>)
    ensures SumaSubtotales(DetallesDe(id, items)) == Subtotal(items)
  {
    if items != [] {
      var init := items[..|items| - 1];
      SubtotalEsSumaDeLineas(id, init);
      assert DetallesDe(id, items)[..|items| - 1] == DetallesDe(id, init);
    }
  }

  /** A row appended with a fresh id is the one a lookup by that id finds. */
  lemma {:induction false} FindVentaNueva(vs: seq<Venta>, v: Venta)
    requires forall i :: 0 <= i < |vs| ==> vs[i].id != v.id
    ensures FindVenta(vs + [v], v.id) == Some(v)
  {
    if vs != [] {
      assert (vs + [v])[1..] == vs[1..] + [v];
      FindVentaNueva(vs[1..], v);
    }
  }

  /** Selecting the new sale's rows out of the grown table gives exactly the
      rows just written, when every older row belongs to an older sale. */
  lemma FiltrarNuevas<T(!new)>(viejas: seq<T>, nuevas: seq<T>, f: T -> bool)
    requires forall i :: 0 <= i < |viejas| ==> !f(viejas[i])
    requires forall i :: 0 <= i < |nuevas| ==> f(nuevas[i])
    ensures Filter(viejas + nuevas, f) == nuevas
  {
    FilterAppend(viejas, nuevas, f);
    FilterNone(viejas, f);
    FilterAll(nuevas, f);
  }

  /** A confirmed request commits `Registrar` and answers its re-read. */
  lemma CrearVentaRegistra(t: Tables, req: Solicitud, fallo: Option<Falla>)
    requires SeConfirma(t, req, fallo)
    ensures var t' := Registrar(t, req, req.items.value);
      CrearVentaSpec(t, req, fallo) == (t', ObtenerDetalleVenta(t', t.nextVentaId))
  {
  }

  lemma RegistrarPreservaValid(t: Tables, req: Solicitud, items: seq<Linea>)
    requires Valid(t) && TurnoAbierto(t.turnos, req.turnoId)
    ensures Valid(Registrar(t, req, items))
  {
    var k :| 0 <= k < |t.turnos| && t.turnos[k].id == req.turnoId && t.turnos[k].estado == Abierto;
    assert req.turnoId < t.nextTurnoId;
  }

  /** The lines of the new sale that survive the join, out of the grown table. */
  lemma LineasNuevasVisibles(viejas: seq<Detalle>, id: nat, items: seq<Linea>, productos: set<nat>)
    requires forall i :: 0 <= i < |viejas| ==> viejas[i].ventaId < id
    ensures Filter(viejas + DetallesDe(id, items), LineaVisible(id, productos))
         == Filter(DetallesDe(id, items), LineaVisible(id, productos))
  {
    FilterAppend(viejas, DetallesDe(id, items), LineaVisible(id, productos));
    FilterNone(viejas, LineaVisible(id, productos));
  }

  /** Re-reading the committed sale finds the new header, the lines whose
      product exists and every payment written. */
  lemma RelecturaDelRegistro(t: Tables, req: Solicitud, items: seq<Linea>)
    requires Valid(t)
    ensures var id := t.nextVentaId;
      ObtenerDetalleVenta(Registrar(t, req, items), id)
        == Ok(VentaCompleta(Encabezado(id, req, Subtotal(items)),
                            Filter(DetallesDe(id, items), LineaVisible(id, t.stock.Keys)),
                            PagosDe(id, req.pagos.GetOr([]))))
  {
    var id := t.nextVentaId;
    var t' := Registrar(t, req, items);
    var v := Encabezado(id, req, Subtotal(items));
    assert FindVenta(t'.ventas, id) == Some(v) by {
      FindVentaNueva(t.ventas, v);
    }
    assert t'.stock.Keys == t.stock.Keys;
    assert Filter(t'.detalles, LineaVisible(id, t'.stock.Keys)) == Filter(DetallesDe(id, items), LineaVisible(id, t.stock.Keys)) by {
      LineasNuevasVisibles(t.detalles, id, items, t.stock.Keys);
    }
    assert Filter(t'.pagos, PagoDeVenta(id)) == PagosDe(id, req.pagos.GetOr([])) by {
      FiltrarNuevas(t.pagos, PagosDe(id, req.pagos.GetOr([])), PagoDeVenta(id));
    }
  }

  /** A confirmed sale keeps the ledger well formed, and the answer is the new
      header (with the request's amounts, defaults and state), the lines whose
      product exists and every payment written. */
  lemma CrearVentaConfirmada(t: Tables, req: Solicitud, fallo: Option<Falla>)
    requires Valid(t) && SeConfirma(t, req, fallo)
    ensures var (t', r) := CrearVentaSpec(t, req, fallo);
      var items := req.items.value;
      var id := t.nextVentaId;
      && Valid(t')
      && r.Ok?
      && r.value.venta == Encabezado(id, req, Subtotal(items))
      && r.value.venta.subtotal == SumaSubtotales(DetallesDe(id, items))
      && r.value.venta.total == r.value.venta.subtotal - req.descuento.GetOr(0) + req.propina.GetOr(0)
      && r.value.detalles == Filter(DetallesDe(id, items), LineaVisible(id, t.stock.Keys))
      && r.value.pagos == PagosDe(id, req.pagos.GetOr([]))
      && t'.ventas == t.ventas + [r.value.venta]
      && t'.detalles == t.detalles + DetallesDe(id, items)
      && t'.turnos == t.turnos
  {
    var items := req.items.value;
    CrearVentaRegistra(t, req, fallo);
    RegistrarPreservaValid(t, req, items);
    RelecturaDelRegistro(t, req, items);
    SubtotalEsSumaDeLineas(t.nextVentaId, items);
  }

  /** A confirmed sale takes each existing product's quantity off its stock
      when, and only when, it is completed; no product is added or removed. */
  lemma CrearVentaStock(t: Tables, req: Solicitud, fallo: Option<Falla>, p: nat)
    requires SeConfirma(t, req, fallo) && p in t.stock
    ensures var t' := CrearVentaSpec(t, req, fallo).0;
      && t'.stock.Keys == t.stock.Keys
      && t'.stock[p] == t.stock[p] - (if req.estado.GetOr(Completada) == Completada then CantidadDe(req.items.value, p) else 0)
  {
    DescontarPorProducto(t.stock, req.items.value, p);
  }

  /** A cancellation gives each existing product back the quantity of the
      sale's lines for it; the other sales keep their state. */
  lemma CancelarVentaStock(t: Tables, id: nat, fallo: Option<Falla>, p: nat)
    requires CancelarVentaSpec(t, id, fallo).1.Ok? && p in t.stock
    ensures var t' := CancelarVentaSpec(t, id, fallo).0;
      && t'.stock.Keys == t.stock.Keys
      && t'.stock[p] == t.stock[p] + CantidadDetalles(Filter(t.detalles, DeVenta(id)), p)
      && forall i :: 0 <= i < |t.ventas| && t.ventas[i].id != id ==> t'.ventas[i] == t.ventas[i]
  {
    ReponerPorProducto(t.stock, Filter(t.detalles, DeVenta(id)), p);
  }

  lemma CrearVentaPreservaValid(t: Tables, req: Solicitud, fallo: Option<Falla>)
    requires Valid(t)
    ensures Valid(CrearVentaSpec(t, req, fallo).0)
  {
    if SeConfirma(t, req, fallo) {
      CrearVentaRegistra(t, req, fallo);
      RegistrarPreservaValid(t, req, req.items.value);
    }
  }

  lemma CancelarVentaPreservaValid(t: Tables, id: nat, fallo: Option<Falla>)
    requires Valid(t)
    ensures Valid(CancelarVentaSpec(t, id, fallo).0)
  {
    var t' := CancelarVentaSpec(t, id, fallo).0;
    assert forall i :: 0 <= i < |t'.ventas| ==> t'.ventas[i].id == t.ventas[i].id;
  }

  /** A sale cannot be cancelled twice: the second attempt answers 400 and
      changes nothing. */
  lemma CancelarDosVeces(t: Tables, id: nat, f1: Option<Falla>, f2: Option<Falla>)
    requires CancelarVentaSpec(t, id, f1).1.Ok?
    ensures var t' := CancelarVentaSpec(t, id, f1).0;
      CancelarVentaSpec(t', id, f2) == (t', Fail(400, YaCancelada))
  {
    ReleerCancelada(t.ventas, id);
  }

  /** The new sale heads its shift's list, which is newest first. */
  lemma NuevaVentaPrimera(t: Tables, req: Solicitud, fallo: Option<Falla>)
    requires Valid(t) && SeConfirma(t, req, fallo)
    ensures var (t', r) := CrearVentaSpec(t, req, fallo);
      var lista := ObtenerVentasTurno(t', req.turnoId);
      |lista| == |ObtenerVentasTurno(t, req.turnoId)| + 1 && lista[0] == r.value.venta
  {
    CrearVentaConfirmada(t, req, fallo);
    var v := Encabezado(t.nextVentaId, req, Subtotal(req.items.value));
    var f := VentaDelTurno(req.turnoId);
    FilterAppend(t.ventas, [v], f);
    assert Filter([v], f) == [v];
  }

  /** A sale not yet cancelled is cancelled when no write is rejected, and
      its line rows are given back to the stock. */
  lemma CancelarEncontrada(t: Tables, id: nat, f: Option<Falla>)
    requires FindVenta(t.ventas, id).Some? && FindVenta(t.ventas, id).value.estado != Cancelada
    requires !RechazaEntre(f, 0, 1 + |Filter(t.detalles, DeVenta(id))|)
    ensures CancelarVentaSpec(t, id, f).1.Ok?
    ensures CancelarVentaSpec(t, id, f).0.stock == Reponer(t.stock, Filter(t.detalles, DeVenta(id)))
  {
  }

  /** Right after `crearVenta` commits, the new sale is found by its id and
      its line rows are exactly the rows of its items. */
  lemma NuevaVentaEnTablas(t: Tables, req: Solicitud, f1: Option<Falla>)
    requires Valid(t) && SeConfirma(t, req, f1)
    ensures var items := req.items.value;
      var id := t.nextVentaId;
      var t1 := CrearVentaSpec(t, req, f1).0;
      && t1 == Registrar(t, req, items)
      && FindVenta(t1.ventas, id) == Some(Encabezado(id, req, Subtotal(items)))
      && Filter(t1.detalles, DeVenta(id)) == DetallesDe(id, items)
  {
    var items := req.items.value;
    var id := t.nextVentaId;
    CrearVentaRegistra(t, req, f1);
    var t1 := Registrar(t, req, items);
    FindVentaNueva(t.ventas, Encabezado(id, req, Subtotal(items)));
    FiltrarNuevas(t.detalles, DetallesDe(id, items), DeVenta(id));
  }

  /** Selling completed goods and then cancelling the sale gives every product
      its stock back. */
  lemma CrearYCancelarDevuelveStock(t: Tables, req: Solicitud, f1: Option<Falla>, f2: Option<Falla>)
    requires Valid(t) && SeConfirma(t, req, f1) && req.estado.GetOr(Completada) == Completada
    requires !RechazaEntre(f2, 0, 1 + |req.items.value|)
    ensures var t1 := CrearVentaSpec(t, req, f1).0;
      var (t2, r2) := CancelarVentaSpec(t1, t.nextVentaId, f2);
      r2.Ok? && t2.stock == t.stock
  {
    NuevaVentaEnTablas(t, req, f1);
    var t1 := Registrar(t, req, req.items.value);
    CancelarEncontrada(t1, t.nextVentaId, f2);
    assert t1.stock == Descontar(t.stock, req.items.value);
    DevolverLoDescontado(t.stock, t.nextVentaId, req.items.value);
  }

  /** Giving back the line rows of the items undoes their decrements. */
  lemma DevolverLoDescontado(stock: map<nat, int>, id: nat, items: seq<Linea>)
    ensures Reponer(Descontar(stock, items), DetallesDe(id, items)) == stock
  {
    var s2 := Reponer(Descontar(stock, items), DetallesDe(id, items));
    forall p | p in stock ensures s2[p] == stock[p] {
      DescontarPorProducto(stock, items, p);
      ReponerPorProducto(Descontar(stock, items), DetallesDe(id, items), p);
      CantidadDeLasLineas(id, items, p);
    }
  }

  // Cancelling a sale that never took stock.

  /** As written, cancelling a sale stored as `temporal`, which took no stock
      when it was created, still adds its quantities to the stock. */
  lemma CancelarTemporalInflaStock(t: Tables, req: Solicitud, f1: Option<Falla>, f2: Option<Falla>, p: nat)
    requires Valid(t) && SeConfirma(t, req, f1) && req.estado == Some(Temporal)
    requires !RechazaEntre(f2, 0, 1 + |req.items.value|)
    requires p in t.stock && CantidadDe(req.items.value, p) > 0
    ensures var t1 := CrearVentaSpec(t, req, f1).0;
      var (t2, r2) := CancelarVentaSpec(t1, t.nextVentaId, f2);
      && r2.Ok?
      && t2.stock[p] == t.stock[p] + CantidadDe(req.items.value, p)
      && t2.stock[p] > t.stock[p]
  {
    var items := req.items.value;
    var id := t.nextVentaId;
    NuevaVentaEnTablas(t, req, f1);
    CancelarEncontrada(Registrar(t, req, items), id, f2);
    ReponerPorProducto(t.stock, DetallesDe(id, items), p);
    CantidadDeLasLineas(id, items, p);
  }

  /** Cancellation as intended: only a completed sale took stock, so only a
      completed sale gives it back; a temporary one is just marked cancelled. */
  function CancelarVentaCorregida(t: Tables, id: nat, fallo: Option<Falla>): (r: (Tables, Outcome<Venta>))
    ensures r.1.Fail? ==> r.0 == t
    ensures r.1.Ok? ==> FindVenta(t.ventas, id).Some?
    ensures r.1.Ok? ==> r.1.value == FindVenta(t.ventas, id).value.(estado := Cancelada)
    ensures r.1.Ok? && FindVenta(t.ventas, id).value.estado != Completada ==> r.0.stock == t.stock
  {
    match FindVenta(t.ventas, id)
    case None => (t, Fail(404, NoEncontrada))
    case Some(v) =>
      if v.estado == Cancelada then (t, Fail(400, YaCancelada))
      else
        var ds := if v.estado == Completada then Filter(t.detalles, DeVenta(id)) else [];
        if RechazaEntre(fallo, 0, 1 + |ds|) then (t, Fail(500, fallo.value.mensaje))
        else (t.(ventas := MarcarCancelada(t.ventas, id), stock := Reponer(t.stock, ds)), Ok(v.(estado := Cancelada)))
  }

  /** With the corrected cancellation, creating a sale in any state and then
      cancelling it leaves every product's stock as it was. */
  lemma CrearYCancelarCorregidaDevuelveStock(t: Tables, req: Solicitud, f1: Option<Falla>, f2: Option<Falla>)
    requires Valid(t) && SeConfirma(t, req, f1)
    requires !RechazaEntre(f2, 0, 1 + |req.items.value|)
    ensures var t1 := CrearVentaSpec(t, req, f1).0;
      CancelarVentaCorregida(t1, t.nextVentaId, f2).0.stock == t.stock
  {
    NuevaVentaEnTablas(t, req, f1);
    if req.estado.GetOr(Completada) == Completada {
      DevolverLoDescontado(t.stock, t.nextVentaId, req.items.value);
    }
  }
}

/** The rows the sales and shift controllers share: shifts (`turnos`), sale
    headers (`ventas`), sale lines, payments and the stock column of
    `productos`. Both controllers are modelled over one logical ledger; the
    table names they use for lines and payments differ (see README). */
module Ledger {
  import opened Wrappers

  datatype EstadoTurno = Abierto | Cerrado

  /** A row of `turnos`. `tiendaId` is the opening user's store, which a
      super_admin may lack (SQL NULL). */
  datatype Turno = Turno(
    id: nat,
    tiendaId: Option<nat>,
    usuarioId: nat,
    montoInicial: int,
    notas: string,
    estado: EstadoTurno,
    montoFinal: Option<int>,
    montoEsperado: Option<int>,
    diferencia: Option<int>)

  datatype EstadoVenta = Completada | Cancelada | Temporal

  datatype MetodoPago = Efectivo | Tarjeta | Transferencia | Mixto

  /** A row of `ventas`, the sale header. Amounts are in cents. */
  datatype Venta = Venta(
    id: nat,
    usuarioId: nat,
    turnoId: nat,
    clienteNombre: string,
    subtotal: int,
    descuento: int,
    propina: int,
    total: int,
    estado: EstadoVenta,
    notas: string)

  /** A sale line row. */
  datatype Detalle = Detalle(
    ventaId: nat,
    productoId: nat,
    cantidad: int,
    precioUnitario: int,
    subtotal: int,
    descuento: int,
    total: int)

  /** A payment row. */
  datatype Pago = Pago(ventaId: nat, metodo: MetodoPago, monto: int, referencia: string)

  /** The whole ledger as a value; `stock` maps each existing product id to its
      stock, and the two counters are the tables' next auto-increment ids. */
  datatype Tables = Tables(
    turnos: seq<Turno>,
    ventas: seq<Venta>,
    detalles: seq<Detalle>,
    pagos: seq<Pago>,
    stock: map<nat, int>,
    nextTurnoId: nat,
    nextVentaId: nat)

  /** The primary keys are unique and below the auto-increment counters,
      every sale, line and payment refers to an id already handed out, and
      each sale's total is its subtotal less its discount plus its tip. */
  ghost predicate Valid(t: Tables) {
    && (forall i :: 0 <= i < |t.turnos| ==> t.turnos[i].id < t.nextTurnoId)
    && (forall i, j :: 0 <= i < j < |t.turnos| ==> t.turnos[i].id != t.turnos[j].id)
    && (forall i :: 0 <= i < |t.ventas| ==> t.ventas[i].id < t.nextVentaId)
    && (forall i :: 0 <= i < |t.ventas| ==> t.ventas[i].turnoId < t.nextTurnoId)
    && (forall i :: 0 <= i < |t.ventas| ==> t.ventas[i].total == t.ventas[i].subtotal - t.ventas[i].descuento + t.ventas[i].propina)
    && (forall i, j :: 0 <= i < j < |t.ventas| ==> t.ventas[i].id != t.ventas[j].id)
    && (forall i :: 0 <= i < |t.detalles| ==> t.detalles[i].ventaId < t.nextVentaId)
    && (forall i :: 0 <= i < |t.pagos| ==> t.pagos[i].ventaId < t.nextVentaId)
  }

  /** SQL `a = b` on nullable ids: NULL equals nothing, not even NULL. */
  predicate SqlEq(a: Option<nat>, b: Option<nat>) {
    a.Some? && b.Some? && a.value == b.value
  }

  /** `SELECT * FROM turnos WHERE id = ? AND estado = 'abierto'` finds a row. */
  predicate TurnoAbierto(turnos: seq<Turno>, id: nat) {
    exists i :: 0 <= i < |turnos| && turnos[i].id == id && turnos[i].estado == Abierto
  }

  /** The first row of `turnos` with this id. */
  function FindTurno(turnos: seq<Turno>, id: nat): (r: Option<Turno>)
    ensures r.Some? ==> r.value in turnos && r.value.id == id
    ensures r.None? ==> forall i :: 0 <= i < |turnos| ==> turnos[i].id != id
  {
    if turnos == [] then None
    else if turnos[0].id == id then Some(turnos[0])
    else FindTurno(turnos[1..], id)
  }

  /** The first row of `ventas` with this id. */
  function FindVenta(ventas: seq<Venta>, id: nat): (r: Option<Venta>)
    ensures r.Some? ==> r.value in ventas && r.value.id == id
    ensures r.None? ==> forall i :: 0 <= i < |ventas| ==> ventas[i].id != id
  {
    if ventas == [] then None
    else if ventas[0].id == id then Some(ventas[0])
    else FindVenta(ventas[1..], id)
  }

  /** The join `JOIN ventas v ON x.venta_id = v.id WHERE v.turno_id = ? AND
      v.estado = 'completada'` keeps a row that refers to `ventaId`. */
  predicate DeVentaCompletada(ventas: seq<Venta>, ventaId: nat, turnoId: nat) {
    exists i :: 0 <= i < |ventas| && ventas[i].id == ventaId && ventas[i].turnoId == turnoId && ventas[i].estado == Completada
  }

  /** A storage fault: the write with index `escritura` (0-based, counted
      from the start of the transaction) is rejected with the error text
      `mensaje`. A fault past the last write has no effect. */
  datatype Falla = Falla(escritura: nat, mensaje: string)

  /** The database the controllers update in place. */
  class Database {
    var turnos: seq<Turno>
    var ventas: seq<Venta>
    var detalles: seq<Detalle>
    var pagos: seq<Pago>
    var stock: map<nat, int>
    var nextTurnoId: nat
    var nextVentaId: nat

    /** A database with the given products and no shifts or sales yet. */
    constructor (productos: map<nat, int>)
      ensures Snapshot() == Tables([], [], [], [], productos, 1, 1)
    {
      turnos, ventas, detalles, pagos := [], [], [], [];
      stock := productos;
      nextTurnoId, nextVentaId := 1, 1;
    }

    /** The current contents of every table. */
    function Snapshot(): Tables
      reads this
    {
      Tables(turnos, ventas, detalles, pagos, stock, nextTurnoId, nextVentaId)
    }

    /** `connection.rollback()`: every table goes back to the state saved when
        the transaction began. InnoDB does not give back auto-increment ids
        handed out inside the transaction, so the counters keep their value. */
    method Rollback(saved: Tables)
      modifies this
      ensures Snapshot() == saved.(nextTurnoId := old(nextTurnoId), nextVentaId := old(nextVentaId))
    {
      turnos, ventas, detalles, pagos := saved.turnos, saved.ventas, saved.detalles, saved.pagos;
      stock := saved.stock;
    }
  }
}

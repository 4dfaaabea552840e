/** The shift controller (backend/controllers/turnosController.js): opening a
    shift, reading the cashier's active shift with its sales figures, closing
    a shift against the cash it should hold, and the cash-up report. */
module Turnos {
  import opened Wrappers
  import opened Seqs
  import opened Ledger
  import Ventas

  /** The body of `POST /turnos/abrir`. */
  datatype SolicitudApertura = SolicitudApertura(usuarioId: nat, montoInicial: int, notas: Option<string>)

  /** The body of `PUT /turnos/:id/cerrar`. */
  datatype SolicitudCierre = SolicitudCierre(montoFinal: int, notas: Option<string>)

  /** The active shift with the figures of all its sales. */
  datatype TurnoActivo = TurnoActivo(turno: Turno, totalVentas: nat, totalVendido: int, ventasTemporales: nat)

  const YaAbierto := "Ya existe un turno abierto"
  const SinTurnoActivo := "No hay turno activo"
  const NoEncontrado := "Turno no encontrado"
  const YaCerrado := "El turno ya está cerrado"

  /** `usuario_id = ? AND tienda_id = ? AND estado = 'abierto'`, with SQL's NULL
      comparison on the store. */
  function AbiertoDe(usuarioId: nat, tiendaId: Option<nat>): Turno -> bool {
    (x: Turno) => x.usuarioId == usuarioId && SqlEq(x.tiendaId, tiendaId) && x.estado == Abierto
  }

  /** No cashier holds two open shifts in the same store. */
  ghost predicate UnAbiertoPorCajero(turnos: seq<Turno>) {
    forall i, j :: 0 <= i < j < |turnos| ==>
      !(turnos[i].estado == Abierto && turnos[j].estado == Abierto && turnos[i].usuarioId == turnos[j].usuarioId
        && SqlEq(turnos[i].tiendaId, turnos[j].tiendaId))
  }

  /** The state and the answer of `POST /turnos/abrir` for a caller whose token
      names store `tiendaId`. */
  function AbrirTurnoSpec(t: Tables, tiendaId: Option<nat>, req: SolicitudApertura): (r: (Tables, Outcome<Turno>))
    ensures r.1.Fail? ==> r.0 == t && r.1 == Fail(400, YaAbierto)
    ensures r.1.Fail? <==> exists i :: 0 <= i < |t.turnos| && AbiertoDe(req.usuarioId, tiendaId)(t.turnos[i])
    ensures r.1.Ok? ==> r.0 == t.(turnos := t.turnos + [r.1.value], nextTurnoId := t.nextTurnoId + 1)
    ensures r.1.Ok? ==> && r.1.value.id == t.nextTurnoId && r.1.value.estado == Abierto
                        && r.1.value.tiendaId == tiendaId && r.1.value.usuarioId == req.usuarioId
                        && r.1.value.montoInicial == req.montoInicial
                        && r.1.value.notas == req.notas.GetOr("")
                        && r.1.value.montoFinal.None? && r.1.value.montoEsperado.None? && r.1.value.diferencia.None?
  {
    var abiertos := Filter(t.turnos, AbiertoDe(req.usuarioId, tiendaId));
    if abiertos != [] then
      assert abiertos[0] in t.turnos;
      (t, Fail(400, YaAbierto))
    else
      var nuevo := Turno(t.nextTurnoId, tiendaId, req.usuarioId, req.montoInicial, req.notas.GetOr(""), Abierto, None, None, None);
      (t.(turnos := t.turnos + [nuevo], nextTurnoId := t.nextTurnoId + 1), Ok(nuevo))
  }

  /** `abrirTurno`: the duplicate check, then the insert. */
  method AbrirTurno(db: Database, tiendaId: Option<nat>, req: SolicitudApertura) returns (r: Outcome<Turno>)
    modifies db
    ensures (db.Snapshot(), r) == AbrirTurnoSpec(old(db.Snapshot()), tiendaId, req)
  {
    var abiertos := Filter(db.turnos, AbiertoDe(req.usuarioId, tiendaId));
    if |abiertos| > 0 {
      return Fail(400, YaAbierto);
    }
    var nuevo := Turno(db.nextTurnoId, tiendaId, req.usuarioId, req.montoInicial, req.notas.GetOr(""), Abierto, None, None, None);
    db.turnos := db.turnos + [nuevo];
    db.nextTurnoId := db.nextTurnoId + 1;
    r := Ok(nuevo);
  }

  function EsTemporal(v: Venta): bool {
    v.estado == Temporal
  }

  /** The sum of the `total` column. */
  function SumaTotales(vs: seq<Venta>): int {
    if vs == [] then 0 else vs[0].total + SumaTotales(vs[1..])
  }

  /** Row `k` is open for the caller and no later row is. */
  predicate UltimoAbierto(turnos: seq<Turno>, k: int, usuarioId: nat, tiendaId: Option<nat>) {
    && 0 <= k < |turnos| && AbiertoDe(usuarioId, tiendaId)(turnos[k])
    && forall j :: k < j < |turnos| ==> !AbiertoDe(usuarioId, tiendaId)(turnos[j])
  }

  /** `GET /turnos/activo/:usuario_id`: the caller's most recently opened open
      shift in the caller's store, with the count and sum of all its sales
      (whatever their state) and the count of its temporary sales. */
  function ObtenerTurnoActivo(t: Tables, usuarioId: nat, tiendaId: Option<nat>): (r: Outcome<TurnoActivo>)
    ensures r.Fail? <==> forall i :: 0 <= i < |t.turnos| ==> !AbiertoDe(usuarioId, tiendaId)(t.turnos[i])
    ensures r.Fail? ==> r == Fail(404, SinTurnoActivo)
    ensures r.Ok? ==> r.value.turno in t.turnos && AbiertoDe(usuarioId, tiendaId)(r.value.turno)
    ensures r.Ok? ==> exists k :: UltimoAbierto(t.turnos, k, usuarioId, tiendaId) && t.turnos[k] == r.value.turno
    ensures r.Ok? ==> var vs := Filter(t.ventas, Ventas.VentaDelTurno(r.value.turno.id));
              && r.value.totalVentas == |vs| && r.value.totalVendido == SumaTotales(vs)
              && r.value.ventasTemporales == |Filter(vs, EsTemporal)| <= r.value.totalVentas
  {
    var abiertos := Filter(t.turnos, AbiertoDe(usuarioId, tiendaId));
    if abiertos == [] then Fail(404, SinTurnoActivo)
    else
      assert abiertos[|abiertos| - 1] in abiertos;
      FilterLast(t.turnos, AbiertoDe(usuarioId, tiendaId));
      var x := abiertos[|abiertos| - 1];
      var vs := Filter(t.ventas, Ventas.VentaDelTurno(x.id));
      Ok(TurnoActivo(x, |vs|, SumaTotales(vs), |Filter(vs, EsTemporal)|))
  }

  /** Payments of completed sales of the shift. */
  function Cobrado(ventas: seq<Venta>, turnoId: nat): Pago -> bool {
    (p: Pago) => DeVentaCompletada(ventas, p.ventaId, turnoId)
  }

  /** `p.metodo_pago = 'efectivo' AND v.turno_id = ? AND v.estado = 'completada'`. */
  function EfectivoCobrado(ventas: seq<Venta>, turnoId: nat): Pago -> bool {
    (p: Pago) => p.metodo == Efectivo && DeVentaCompletada(ventas, p.ventaId, turnoId)
  }

  /** `COALESCE(SUM(p.monto), 0)`. */
  function SumaMontos(ps: seq<Pago>): int {
    if ps == [] then 0 else ps[0].monto + SumaMontos(ps[1..])
  }

  /** The cash taken by the shift's completed sales. */
  function EfectivoDelTurno(t: Tables, turnoId: nat): int {
    SumaMontos(Filter(t.pagos, EfectivoCobrado(t.ventas, turnoId)))
  }

  /** A shift row after its close. */
  function Cerrado_(x: Turno, montoFinal: int, esperado: int, notas: string): Turno {
    x.(montoFinal := Some(montoFinal), montoEsperado := Some(esperado), diferencia := Some(montoFinal - esperado),
       notas := notas, estado := Cerrado)
  }

  /** `UPDATE turnos SET ... WHERE id = ?`: every row with this id is closed. */
  function CerrarFilas(turnos: seq<Turno>, id: nat, montoFinal: int, esperado: int, notas: string): (r: seq<Turno>)
    ensures |r| == |turnos|
    ensures forall i :: 0 <= i < |turnos| ==>
              r[i] == if turnos[i].id == id then Cerrado_(turnos[i], montoFinal, esperado, notas) else turnos[i]
  {
    if turnos == [] then []
    else [if turnos[0].id == id then Cerrado_(turnos[0], montoFinal, esperado, notas) else turnos[0]]
         + CerrarFilas(turnos[1..], id, montoFinal, esperado, notas)
  }

  /** The state and the answer of `PUT /turnos/:id/cerrar`: the expected cash
      is the opening float plus the cash of the completed sales, and the
      difference is what was counted less what was expected. */
  function CerrarTurnoSpec(t: Tables, id: nat, req: SolicitudCierre): (r: (Tables, Outcome<Turno>))
    ensures r.1.Fail? ==> r.0 == t
    ensures r.1.Fail? && r.1.status == 404 <==> FindTurno(t.turnos, id).None?
    ensures r.1.Fail? && r.1.status == 400 <==> FindTurno(t.turnos, id).Some? && FindTurno(t.turnos, id).value.estado == Cerrado
    ensures r.1.Ok? ==> FindTurno(t.turnos, id).Some?
    ensures r.1.Ok? ==> var x := FindTurno(t.turnos, id).value;
              && r.1.value.id == id && r.1.value.estado == Cerrado
              && r.1.value.montoFinal == Some(req.montoFinal)
              && r.1.value.montoEsperado == Some(x.montoInicial + EfectivoDelTurno(t, id))
              && r.1.value.diferencia == Some(req.montoFinal - (x.montoInicial + EfectivoDelTurno(t, id)))
              && r.1.value.notas == req.notas.GetOr("")
              && r.1.value == Cerrado_(x, req.montoFinal, x.montoInicial + EfectivoDelTurno(t, id), req.notas.GetOr(""))
    ensures r.1.Ok? ==> var x := FindTurno(t.turnos, id).value;
              r.0 == t.(turnos := CerrarFilas(t.turnos, id, req.montoFinal, x.montoInicial + EfectivoDelTurno(t, id),
                                              req.notas.GetOr("")))
    ensures r.1.Ok? ==> r.0 == t.(turnos := r.0.turnos) && |r.0.turnos| == |t.turnos|
  {
    match FindTurno(t.turnos, id)
    case None => (t, Fail(404, NoEncontrado))
    case Some(x) => if x.estado == Cerrado then (t, Fail(400, YaCerrado)) else Cierre(t, x, id, req.montoFinal, x.montoInicial + EfectivoDelTurno(t, id), req.notas.GetOr(""))
  }

  /** The update of the open shift `x` and its re-read row. */
  function Cierre(t: Tables, x: Turno, id: nat, montoFinal: int, esperado: int, notas: string): (Tables, Outcome<Turno>) {
    (t.(turnos := CerrarFilas(t.turnos, id, montoFinal, esperado, notas)), Ok(Cerrado_(x, montoFinal, esperado, notas)))
  }

  /** Every shift that is found and not yet closed can be closed. */
  lemma CerrarAbierto(t: Tables, id: nat, req: SolicitudCierre)
    requires FindTurno(t.turnos, id).Some? && FindTurno(t.turnos, id).value.estado != Cerrado
    ensures CerrarTurnoSpec(t, id, req).1.Ok?
  {
    var x := FindTurno(t.turnos, id).value;
    assert CerrarTurnoSpec(t, id, req) == Cierre(t, x, id, req.montoFinal, x.montoInicial + EfectivoDelTurno(t, id), req.notas.GetOr(""));
  }

  /** Re-reading a closed shift finds it with its closing figures. */
  lemma {:induction false} ReleerCerrado(turnos: seq<Turno>, id: nat, montoFinal: int, esperado: int, notas: string)
    requires FindTurno(turnos, id).Some?
    ensures FindTurno(CerrarFilas(turnos, id, montoFinal, esperado, notas), id)
         == Some(Cerrado_(FindTurno(turnos, id).value, montoFinal, esperado, notas))
  {
    if turnos[0].id != id {
      ReleerCerrado(turnos[1..], id, montoFinal, esperado, notas);
    }
  }

  /** `cerrarTurno`: the two checks, the cash query, the update and the re-read. */
  method CerrarTurno(db: Database, id: nat, req: SolicitudCierre) returns (r: Outcome<Turno>)
    modifies db
    ensures (db.Snapshot(), r) == CerrarTurnoSpec(old(db.Snapshot()), id, req)
  {
    var t := db.Snapshot();
    var found := FindTurno(t.turnos, id);
    if found.None? {
      return Fail(404, NoEncontrado);
    }
    if found.value.estado == Cerrado {
      return Fail(400, YaCerrado);
    }
    var esperado := found.value.montoInicial + EfectivoDelTurno(t, id);
    var notas := req.notas.GetOr("");
    var cerradas := CerrarFilas(t.turnos, id, req.montoFinal, esperado, notas);
    assert CerrarTurnoSpec(t, id, req) == Cierre(t, found.value, id, req.montoFinal, esperado, notas);
    ReleerCerrado(t.turnos, id, req.montoFinal, esperado, notas);
    db.turnos := cerradas;
    assert db.Snapshot() == t.(turnos := cerradas);
    var releida := FindTurno(db.turnos, id);
    r := Ok(releida.value);
  }

  // The cash-up report.

  /** One row of `ventasPorMetodo`. */
  datatype GrupoMetodo = GrupoMetodo(metodo: MetodoPago, cantidadVentas: nat, total: int)

  /** The row of `totalVentas`. */
  datatype TotalVentas = TotalVentas(cantidad: nat, subtotal: int, descuento: int, propina: int, total: int)

  /** One row of `productosVendidos`. */
  datatype ProductoVendido = ProductoVendido(productoId: nat, cantidadVendida: int, totalVendido: int)

  datatype Arqueo = Arqueo(turno: Turno, ventasPorMetodo: seq<GrupoMetodo>, totalVentas: TotalVentas,
                           productosVendidos: seq<ProductoVendido>)

  /** The payment methods, in the order the report lists their groups. */
  const Metodos: seq<MetodoPago> := [Efectivo, Tarjeta, Transferencia, Mixto]

  function DelMetodo(m: MetodoPago): Pago -> bool {
    (p: Pago) => p.metodo == m
  }

  lemma MetodosSinRepetir()
    ensures SinRepetir(Metodos)
  {
  }

  /** The payments of the shift's completed sales. */
  function PagosCobrados(t: Tables, turnoId: nat): seq<Pago> {
    Filter(t.pagos, Cobrado(t.ventas, turnoId))
  }

  /** `COUNT(DISTINCT v.id)`. */
  function VentasDistintas(ps: seq<Pago>): nat {
    |set p | p in ps :: p.ventaId|
  }

  /** The methods of the groups, in order. */
  function MetodosDe(gs: seq<GrupoMetodo>): (r: seq<MetodoPago>)
    ensures |r| == |gs|
    ensures forall i :: 0 <= i < |gs| ==> r[i] == gs[i].metodo
  {
    seq(|gs|, i requires 0 <= i < |gs| => gs[i].metodo)
  }

  /** No method is listed twice. */
  predicate SinRepetir(ms: seq<MetodoPago>) {
    forall i, j :: 0 <= i < j < |ms| ==> ms[i] != ms[j]
  }

  /** `GROUP BY p.metodo_pago`: one row for each method some payment used,
      counting the distinct sales and summing the amounts of that method's
      payments; the rows follow the order of `ms`. */
  function Grupos(cobrados: seq<Pago>, ms: seq<MetodoPago>): (r: seq<GrupoMetodo>)
    ensures forall g :: g in r ==> g.metodo in ms && Filter(cobrados, DelMetodo(g.metodo)) != []
    ensures forall m :: m in ms && Filter(cobrados, DelMetodo(m)) != [] ==> exists g :: g in r && g.metodo == m
    ensures forall g :: g in r ==> && g.total == SumaMontos(Filter(cobrados, DelMetodo(g.metodo)))
                                   && g.cantidadVentas == VentasDistintas(Filter(cobrados, DelMetodo(g.metodo)))
    ensures IsSubsequence(MetodosDe(r), ms)
    ensures SinRepetir(ms) ==> SinRepetir(MetodosDe(r))
  {
    if ms == [] then []
    else
      var de := Filter(cobrados, DelMetodo(ms[0]));
      var rest := Grupos(cobrados, ms[1..]);
      SinRepetirCola(ms);
      if de == [] then
        SubsecuenciaDeCola(MetodosDe(rest), ms);
        rest
      else
        var g := GrupoMetodo(ms[0], VentasDistintas(de), SumaMontos(de));
        GrupoDelante(g, rest, ms);
        [g] + rest
  }

  lemma SinRepetirCola(ms: seq<MetodoPago>)
    requires ms != []
    ensures SinRepetir(ms) ==> SinRepetir(ms[1..]) && ms[0] !in ms[1..]
  {
    if SinRepetir(ms) {
      forall i, j | 0 <= i < j < |ms[1..]| ensures ms[1..][i] != ms[1..][j] {
        assert ms[1..][i] == ms[i + 1] && ms[1..][j] == ms[j + 1];
      }
      forall k | 0 <= k < |ms[1..]| ensures ms[1..][k] != ms[0] {
        assert ms[1..][k] == ms[k + 1];
      }
    }
  }

  lemma SubsecuenciaDeCola(sub: seq<MetodoPago>, s: seq<MetodoPago>)
    requires s != [] && IsSubsequence(sub, s[1..])
    ensures IsSubsequence(sub, s)
  {
  }

  /** The group of `ms[0]` put before the groups of `ms[1..]` keeps the order
      of `ms`, and keeps the methods distinct when `ms` lists each once. */
  lemma GrupoDelante(g: GrupoMetodo, rest: seq<GrupoMetodo>, ms: seq<MetodoPago>)
    requires ms != [] && g.metodo == ms[0]
    requires IsSubsequence(MetodosDe(rest), ms[1..])
    requires forall h :: h in rest ==> h.metodo in ms[1..]
    requires SinRepetir(ms) ==> SinRepetir(ms[1..]) && ms[0] !in ms[1..]
    requires SinRepetir(ms[1..]) ==> SinRepetir(MetodosDe(rest))
    ensures IsSubsequence(MetodosDe([g] + rest), ms)
    ensures SinRepetir(ms) ==> SinRepetir(MetodosDe([g] + rest))
  {
    var r := [g] + rest;
    assert MetodosDe(r) == [g.metodo] + MetodosDe(rest);
    if SinRepetir(ms) {
      forall k | 0 <= k < |rest| ensures MetodosDe(rest)[k] != g.metodo {
        assert rest[k] in rest;
      }
      SinRepetirDelante(g.metodo, MetodosDe(rest));
    }
  }

  lemma SinRepetirDelante(m: MetodoPago, ms: seq<MetodoPago>)
    requires m !in ms && SinRepetir(ms)
    ensures SinRepetir([m] + ms)
  {
    var r := [m] + ms;
    forall i, j | 0 <= i < j < |r| ensures r[i] != r[j] {
      assert r[j] == ms[j - 1];
      if i > 0 {
        assert r[i] == ms[i - 1];
      }
    }
  }

  function SumaGrupos(gs: seq<GrupoMetodo>): int {
    if gs == [] then 0 else gs[0].total + SumaGrupos(gs[1..])
  }

  function SumaSubtotalesVentas(vs: seq<Venta>): int {
    if vs == [] then 0 else vs[0].subtotal + SumaSubtotalesVentas(vs[1..])
  }

  function SumaDescuentos(vs: seq<Venta>): int {
    if vs == [] then 0 else vs[0].descuento + SumaDescuentos(vs[1..])
  }

  function SumaPropinas(vs: seq<Venta>): int {
    if vs == [] then 0 else vs[0].propina + SumaPropinas(vs[1..])
  }

  /** `COUNT(*)` and the sums over the shift's completed sales, each column
      summed on its own (`COALESCE(SUM(...), 0)`, so no sales sum to zero). */
  function Totales(vs: seq<Venta>): (r: TotalVentas)
    ensures r.cantidad == |vs|
    ensures r.subtotal == SumaSubtotalesVentas(vs)
    ensures r.descuento == SumaDescuentos(vs)
    ensures r.propina == SumaPropinas(vs)
    ensures r.total == SumaTotales(vs)
  {
    if vs == [] then TotalVentas(0, 0, 0, 0, 0)
    else
      var rest := Totales(vs[1..]);
      TotalVentas(rest.cantidad + 1, vs[0].subtotal + rest.subtotal, vs[0].descuento + rest.descuento,
                  vs[0].propina + rest.propina, vs[0].total + rest.total)
  }

  function CompletadaDelTurno(turnoId: nat): Venta -> bool {
    (v: Venta) => v.turnoId == turnoId && v.estado == Completada
  }

  /** Lines of the shift's completed sales whose product exists. */
  function LineaVendida(ventas: seq<Venta>, productos: set<nat>, turnoId: nat): Detalle -> bool {
    (d: Detalle) => d.productoId in productos && DeVentaCompletada(ventas, d.ventaId, turnoId)
  }

  function LineasVendidas(t: Tables, turnoId: nat): seq<Detalle> {
    Filter(t.detalles, LineaVendida(t.ventas, t.stock.Keys, turnoId))
  }

  /** The values of `xs`, each once. */
  function Distintos(xs: seq<nat>): (r: seq<nat>)
    ensures forall x :: x in r <==> x in xs
    ensures forall i, j :: 0 <= i < j < |r| ==> r[i] != r[j]
  {
    if xs == [] then []
    else if xs[0] in xs[1..] then Distintos(xs[1..])
    else [xs[0]] + Distintos(xs[1..])
  }

  function TotalDetalles(ds: seq<Detalle>, p: nat): int {
    if ds == [] then 0
    else TotalDetalles(ds[..|ds| - 1], p) + (if ds[|ds| - 1].productoId == p then ds[|ds| - 1].total else 0)
  }

  /** The product ids of the lines, in order. */
  function IdsDe(ls: seq<Detalle>): (r: seq<nat>)
    ensures |r| == |ls|
    ensures forall i :: 0 <= i < |ls| ==> r[i] == ls[i].productoId
  {
    seq(|ls|, i requires 0 <= i < |ls| => ls[i].productoId)
  }

  /** The report row of one product. */
  function GrupoDe(ls: seq<Detalle>, p: nat): ProductoVendido {
    ProductoVendido(p, Ventas.CantidadDetalles(ls, p), TotalDetalles(ls, p))
  }

  /** `GROUP BY p.id`: one row per product sold, with its quantity and amount. */
  function Agrupar(ls: seq<Detalle>): (r: seq<ProductoVendido>)
    ensures forall i, j :: 0 <= i < j < |r| ==> r[i].productoId != r[j].productoId
    ensures forall d :: d in ls ==> GrupoDe(ls, d.productoId) in r
    ensures forall g :: g in r ==> g.productoId in IdsDe(ls) && g == GrupoDe(ls, g.productoId)
  {
    var ids := Distintos(IdsDe(ls));
    var r := seq(|ids|, i requires 0 <= i < |ids| => GrupoDe(ls, ids[i]));
    forall d | d in ls ensures GrupoDe(ls, d.productoId) in r {
      var k :| 0 <= k < |ls| && ls[k] == d;
      assert IdsDe(ls)[k] == d.productoId;
      assert d.productoId in IdsDe(ls);
      var i :| 0 <= i < |ids| && ids[i] == d.productoId;
      assert r[i] == GrupoDe(ls, d.productoId);
    }
    r
  }

  /** `ORDER BY cantidad_vendida DESC`. */
  function MasVendidoPrimero(a: ProductoVendido, b: ProductoVendido): bool {
    a.cantidadVendida >= b.cantidadVendida
  }

  lemma MasVendidoPrimeroEsPreorden()
    ensures TotalPreorder(MasVendidoPrimero)
  {
  }

  /** No product has two rows. */
  predicate IdsDistintos(gs: seq<ProductoVendido>) {
    forall i, j :: 0 <= i < j < |gs| ==> gs[i].productoId != gs[j].productoId
  }

  /** Rows taken from a list with one row per product have one row per product. */
  lemma IdsDistintosEnParte(a: seq<ProductoVendido>, b: seq<ProductoVendido>)
    requires multiset(a) <= multiset(b) && IdsDistintos(b)
    ensures IdsDistintos(a)
  {
    SubmultisetNoDuplicates(a, b);
    forall i, j | 0 <= i < j < |a| ensures a[i].productoId != a[j].productoId {
      assert a[i] in multiset(b) && a[j] in multiset(b);
      var p :| 0 <= p < |b| && b[p] == a[i];
      var q :| 0 <= q < |b| && b[q] == a[j];
      assert p != q;
    }
  }

  /** The ten best-selling products of the shift, best first, each once, and
      all of them when there are at most ten; no product left out sold more
      than one listed. */
  function ProductosVendidos(t: Tables, turnoId: nat): (r: seq<ProductoVendido>)
    ensures |r| == Min(10, |Agrupar(LineasVendidas(t, turnoId))|)
    ensures IdsDistintos(r)
    ensures |Agrupar(LineasVendidas(t, turnoId))| <= 10 ==>
              forall g :: g in Agrupar(LineasVendidas(t, turnoId)) ==> g in r
    ensures SortedBy(r, MasVendidoPrimero)
    ensures forall g :: g in r ==> g in Agrupar(LineasVendidas(t, turnoId))
    ensures forall g :: g in Agrupar(LineasVendidas(t, turnoId)) && g !in r ==>
              forall i :: 0 <= i < |r| ==> r[i].cantidadVendida >= g.cantidadVendida
  {
    var grupos := Agrupar(LineasVendidas(t, turnoId));
    DiezPrimeros(grupos);
    assert IdsDistintos(grupos);
    Take(SortBy(grupos, MasVendidoPrimero), 10)
  }

  /** `LIMIT 10` after the sort takes rows of the groups, each no more often
      than it occurs there, and all of them when there are at most ten. */
  lemma DiezPrimerosDeLosGrupos(grupos: seq<ProductoVendido>)
    ensures var r := Take(SortBy(grupos, MasVendidoPrimero), 10);
      && multiset(r) <= multiset(grupos)
      && (IdsDistintos(grupos) ==> IdsDistintos(r))
      && (|grupos| <= 10 ==> multiset(r) == multiset(grupos))
      && (|grupos| <= 10 ==> forall g :: g in grupos ==> g in r)
      && (forall g :: g in r ==> g in grupos)
  {
    var orden := SortBy(grupos, MasVendidoPrimero);
    var r := Take(orden, 10);
    TakeSubmultiset(orden, 10);
    if IdsDistintos(grupos) {
      IdsDistintosEnParte(r, grupos);
    }
    forall g | g in r ensures g in grupos {
      assert g in multiset(r);
    }
    if |grupos| <= 10 {
      assert r == orden;
      forall g | g in grupos ensures g in r {
        assert g in multiset(grupos);
      }
    }
  }

  /** The first ten groups by units sold are sorted, are taken from the groups
      (each no more often than there), are all of them when there are at most
      ten, and sold no less than any group left out. */
  lemma {:induction false} DiezPrimeros(grupos: seq<ProductoVendido>)
    ensures var r := Take(SortBy(grupos, MasVendidoPrimero), 10);
      && |r| == Min(10, |grupos|)
      && multiset(r) <= multiset(grupos)
      && (IdsDistintos(grupos) ==> IdsDistintos(r))
      && (|grupos| <= 10 ==> multiset(r) == multiset(grupos))
      && (|grupos| <= 10 ==> forall g :: g in grupos ==> g in r)
      && SortedBy(r, MasVendidoPrimero)
      && (forall g :: g in r ==> g in grupos)
      && (forall g :: g in grupos && g !in r ==> forall i :: 0 <= i < |r| ==> r[i].cantidadVendida >= g.cantidadVendida)
  {
    DiezPrimerosDeLosGrupos(grupos);
    DiezPrimerosOrdenados(grupos);
  }

  /** The first ten after the sort are sorted and outsell every group left out. */
  lemma DiezPrimerosOrdenados(grupos: seq<ProductoVendido>)
    ensures var r := Take(SortBy(grupos, MasVendidoPrimero), 10);
      && SortedBy(r, MasVendidoPrimero)
      && (forall g :: g in grupos && g !in r ==> forall i :: 0 <= i < |r| ==> r[i].cantidadVendida >= g.cantidadVendida)
  {
    var orden := SortBy(grupos, MasVendidoPrimero);
    MasVendidoPrimeroEsPreorden();
    SortBySorted(grupos, MasVendidoPrimero);
    var r := Take(orden, 10);
    forall g | g in grupos && g !in r ensures forall i :: 0 <= i < |r| ==> r[i].cantidadVendida >= g.cantidadVendida {
      assert g in multiset(orden);
      TakeDeOrdenado(orden, 10, MasVendidoPrimero, g);
    }
  }

  /** `GET /turnos/:id/arqueo`. */
  function ObtenerArqueo(t: Tables, id: nat): (r: Outcome<Arqueo>)
    ensures r.Fail? <==> FindTurno(t.turnos, id).None?
    ensures r.Fail? ==> r == Fail(404, NoEncontrado)
    ensures r.Ok? ==> r.value.turno.id == id && r.value.turno in t.turnos
    ensures r.Ok? ==> r.value.turno == FindTurno(t.turnos, id).value
    ensures r.Ok? ==> && r.value.ventasPorMetodo == Grupos(PagosCobrados(t, id), Metodos)
                      && SinRepetir(MetodosDe(r.value.ventasPorMetodo))
    ensures r.Ok? ==> r.value.totalVentas == Totales(Filter(t.ventas, CompletadaDelTurno(id)))
    ensures r.Ok? ==> r.value.totalVentas.cantidad == |Filter(t.ventas, CompletadaDelTurno(id))|
    ensures r.Ok? ==> r.value.productosVendidos == ProductosVendidos(t, id)
  {
    match FindTurno(t.turnos, id)
    case None => Fail(404, NoEncontrado)
    case Some(x) =>
      MetodosSinRepetir();
      Ok(Arqueo(x, Grupos(PagosCobrados(t, id), Metodos), Totales(Filter(t.ventas, CompletadaDelTurno(id))),
                ProductosVendidos(t, id)))
  }

  // Properties of the shift endpoints.

  /** Opening a shift keeps the ledger well formed and keeps each cashier to
      one open shift per store. */
  lemma AbrirTurnoPreserva(t: Tables, tiendaId: Option<nat>, req: SolicitudApertura)
    requires Valid(t) && UnAbiertoPorCajero(t.turnos)
    ensures var t' := AbrirTurnoSpec(t, tiendaId, req).0;
      Valid(t') && UnAbiertoPorCajero(t'.turnos)
  {
    var (t', r) := AbrirTurnoSpec(t, tiendaId, req);
    if r.Ok? {
      var n := |t.turnos|;
      forall i, j | 0 <= i < j < |t'.turnos|
        ensures !(t'.turnos[i].estado == Abierto && t'.turnos[j].estado == Abierto
                  && t'.turnos[i].usuarioId == t'.turnos[j].usuarioId && SqlEq(t'.turnos[i].tiendaId, t'.turnos[j].tiendaId))
      {
        if j == n {
          assert !AbiertoDe(req.usuarioId, tiendaId)(t.turnos[i]);
        }
      }
    }
  }

  /** The shift just opened in a store is the cashier's active shift there,
      with no sales yet. */
  lemma AbrirYConsultar(t: Tables, tiendaId: Option<nat>, req: SolicitudApertura)
    requires Valid(t) && tiendaId.Some? && AbrirTurnoSpec(t, tiendaId, req).1.Ok?
    ensures var (t', r) := AbrirTurnoSpec(t, tiendaId, req);
      ObtenerTurnoActivo(t', req.usuarioId, tiendaId) == Ok(TurnoActivo(r.value, 0, 0, 0))
  {
    var (t', r) := AbrirTurnoSpec(t, tiendaId, req);
    var f := AbiertoDe(req.usuarioId, tiendaId);
    FilterAppend(t.turnos, [r.value], f);
    FilterNone(t.turnos, f);
    assert Filter([r.value], f) == [r.value];
    FilterNone(t.ventas, Ventas.VentaDelTurno(r.value.id));
  }

  /** A caller whose token names no store can always open another shift, and
      never finds an active one: `tienda_id = NULL` matches no row. */
  lemma SinTiendaNuncaActivo(t: Tables, req: SolicitudApertura)
    ensures var (t', r) := AbrirTurnoSpec(t, None, req);
      r.Ok? && ObtenerTurnoActivo(t', req.usuarioId, None) == Fail(404, SinTurnoActivo)
  {
    var t' := AbrirTurnoSpec(t, None, req).0;
    FilterNone(t.turnos, AbiertoDe(req.usuarioId, None));
    FilterNone(t'.turnos, AbiertoDe(req.usuarioId, None));
  }

  /** Closing a shift keeps the ledger well formed and the one-open-shift rule. */
  lemma CerrarTurnoPreserva(t: Tables, id: nat, req: SolicitudCierre)
    requires Valid(t) && UnAbiertoPorCajero(t.turnos)
    ensures var t' := CerrarTurnoSpec(t, id, req).0;
      Valid(t') && UnAbiertoPorCajero(t'.turnos)
  {
    var cs := FilasTrasCierre(t, id, req);
    CierreSoloCambiaFilas(t, id, req);
    CierraSinAbrir(t, cs);
  }

  /** The `turnos` table after `PUT /turnos/:id/cerrar`. */
  function FilasTrasCierre(t: Tables, id: nat, req: SolicitudCierre): (cs: seq<Turno>)
    ensures |cs| == |t.turnos|
    ensures forall i :: 0 <= i < |cs| ==>
              cs[i].id == t.turnos[i].id && (cs[i].estado == Abierto ==> cs[i] == t.turnos[i])
  {
    CerrarTurnoSpec(t, id, req).0.turnos
  }

  /** The close changes no table but `turnos`. */
  lemma CierreSoloCambiaFilas(t: Tables, id: nat, req: SolicitudCierre)
    ensures CerrarTurnoSpec(t, id, req).0 == t.(turnos := FilasTrasCierre(t, id, req))
  {
  }

  /** Rows that keep their ids, and that are unchanged wherever they are
      still open, keep the ledger well formed and the one-open-shift rule. */
  lemma CierraSinAbrir(t: Tables, cs: seq<Turno>)
    requires Valid(t) && UnAbiertoPorCajero(t.turnos) && |cs| == |t.turnos|
    requires forall i :: 0 <= i < |cs| ==>
               cs[i].id == t.turnos[i].id && (cs[i].estado == Abierto ==> cs[i] == t.turnos[i])
    ensures Valid(t.(turnos := cs)) && UnAbiertoPorCajero(cs)
  {
  }

  /** A closed shift takes no more sales: every sale posted to it answers 400. */
  lemma CerradoNoAdmiteVentas(t: Tables, id: nat, req: SolicitudCierre, venta: Ventas.Solicitud, f: Option<Falla>)
    requires CerrarTurnoSpec(t, id, req).1.Ok?
    requires venta.turnoId == id && venta.items.Some? && |venta.items.value| > 0
    ensures var t' := CerrarTurnoSpec(t, id, req).0;
      Ventas.CrearVentaSpec(t', venta, f) == (t', Fail(400, Ventas.SinTurno))
  {
    var t' := CerrarTurnoSpec(t, id, req).0;
    assert forall i :: 0 <= i < |t'.turnos| && t'.turnos[i].id == id ==> t'.turnos[i].estado == Cerrado;
  }

  /** A shift cannot be closed twice. */
  lemma CerrarDosVeces(t: Tables, id: nat, r1: SolicitudCierre, r2: SolicitudCierre)
    requires CerrarTurnoSpec(t, id, r1).1.Ok?
    ensures var t' := CerrarTurnoSpec(t, id, r1).0;
      CerrarTurnoSpec(t', id, r2) == (t', Fail(400, YaCerrado))
  {
    var x := FindTurno(t.turnos, id).value;
    var esperado := x.montoInicial + EfectivoDelTurno(t, id);
    var cerradas := CerrarFilas(t.turnos, id, r1.montoFinal, esperado, r1.notas.GetOr(""));
    assert CerrarTurnoSpec(t, id, r1).0 == t.(turnos := cerradas);
    ReleerCerrado(t.turnos, id, r1.montoFinal, esperado, r1.notas.GetOr(""));
    assert FindTurno(cerradas, id).value.estado == Cerrado;
  }

  /** Splitting payments by method loses none of them. */
  lemma {:induction false} SumaPorMetodo(ps: seq<Pago>)
    ensures SumaMontos(ps) == SumaMontos(Filter(ps, DelMetodo(Efectivo))) + SumaMontos(Filter(ps, DelMetodo(Tarjeta)))
                            + SumaMontos(Filter(ps, DelMetodo(Transferencia))) + SumaMontos(Filter(ps, DelMetodo(Mixto)))
  {
    if ps != [] {
      SumaPorMetodo(ps[1..]);
    }
  }

  lemma {:induction false} SumaGruposAppend(a: seq<GrupoMetodo>, b: seq<GrupoMetodo>)
    ensures SumaGrupos(a + b) == SumaGrupos(a) + SumaGrupos(b)
  {
    if a != [] {
      assert (a + b)[1..] == a[1..] + b;
      SumaGruposAppend(a[1..], b);
    } else {
      assert a + b == b;
    }
  }

  /** The group of one method, if any payment used it, sums that method's payments. */
  lemma GrupoSuma(c: seq<Pago>, m: MetodoPago, rest: seq<MetodoPago>)
    ensures SumaGrupos(Grupos(c, [m] + rest)) == SumaMontos(Filter(c, DelMetodo(m))) + SumaGrupos(Grupos(c, rest))
  {
    var de := Filter(c, DelMetodo(m));
    var head: seq<GrupoMetodo> := if de == [] then [] else [GrupoMetodo(m, VentasDistintas(de), SumaMontos(de))];
    assert ([m] + rest)[1..] == rest;
    SumaGruposAppend(head, Grupos(c, rest));
  }

  /** The report's per-method totals add up to every payment of the shift's
      completed sales. */
  lemma ArqueoCuadraCobros(t: Tables, id: nat)
    ensures SumaGrupos(Grupos(PagosCobrados(t, id), Metodos)) == SumaMontos(PagosCobrados(t, id))
  {
    var c := PagosCobrados(t, id);
    GruposSuman(c, Metodos);
    SumaDeLosMetodos(c);
  }

  /** Summing method by method over the four methods loses no payment. */
  lemma SumaDeLosMetodos(c: seq<Pago>)
    ensures SumaDeMetodos(c, Metodos) == SumaMontos(c)
  {
    SumaPorMetodo(c);
    assert Metodos[1..][1..][1..][1..] == [];
    assert SumaDeMetodos(c, Metodos[1..][1..][1..]) == SumaMontos(Filter(c, DelMetodo(Mixto)));
    assert SumaDeMetodos(c, Metodos[1..][1..]) == SumaMontos(Filter(c, DelMetodo(Transferencia)))
                                                   + SumaMontos(Filter(c, DelMetodo(Mixto)));
  }

  /** The amounts of the payments of each method of `ms`, added up. */
  function SumaDeMetodos(c: seq<Pago>, ms: seq<MetodoPago>): int {
    if ms == [] then 0 else SumaMontos(Filter(c, DelMetodo(ms[0]))) + SumaDeMetodos(c, ms[1..])
  }

  /** The groups' totals add up to the payments of their methods. */
  lemma {:induction false} GruposSuman(c: seq<Pago>, ms: seq<MetodoPago>)
    ensures SumaGrupos(Grupos(c, ms)) == SumaDeMetodos(c, ms)
  {
    if ms != [] {
      assert ms == [ms[0]] + ms[1..];
      GrupoSuma(c, ms[0], ms[1..]);
      GruposSuman(c, ms[1..]);
    }
  }

  lemma {:induction false} TotalesCuadran(vs: seq<Venta>)
    requires forall i :: 0 <= i < |vs| ==> vs[i].total == vs[i].subtotal - vs[i].descuento + vs[i].propina
    ensures Totales(vs).total == Totales(vs).subtotal - Totales(vs).descuento + Totales(vs).propina
  {
    if vs != [] {
      TotalesCuadran(vs[1..]);
    }
  }

  /** In the report, the shift's total is its subtotal less discounts plus tips. */
  lemma ArqueoTotalesCuadran(t: Tables, id: nat)
    requires Valid(t) && ObtenerArqueo(t, id).Ok?
    ensures var tv := ObtenerArqueo(t, id).value.totalVentas;
      tv.total == tv.subtotal - tv.descuento + tv.propina
  {
    var vs := Filter(t.ventas, CompletadaDelTurno(id));
    forall i | 0 <= i < |vs| ensures vs[i].total == vs[i].subtotal - vs[i].descuento + vs[i].propina {
      assert vs[i] in t.ventas;
    }
    TotalesCuadran(vs);
  }
}

/** The shift-close page (frontend/src/pages/CierreTurno.jsx): a preview of
    the expected cash and the difference, computed from the active shift and
    its arqueo report, and the guard in front of the close request. */
module CierreTurno {
  import opened Wrappers
  import opened Seqs
  import opened Ledger
  import opened Turnos

  /** `arqueo.ventasPorMetodo.find(v => v.metodo_pago === 'efectivo')?.total || 0`. */
  function VentasEfectivo(gs: seq<GrupoMetodo>): (r: int)
    ensures (forall k :: 0 <= k < |gs| ==> gs[k].metodo != Efectivo) ==> r == 0
    ensures forall k :: 0 <= k < |gs| && gs[k].metodo == Efectivo && (forall j :: 0 <= j < k ==> gs[j].metodo != Efectivo)
              ==> r == gs[k].total
  {
    if gs == [] then 0
    else if gs[0].metodo == Efectivo then gs[0].total
    else VentasEfectivo(gs[1..])
  }

  /** `montoEsperado`: the opening float plus the cash the report shows. */
  function MontoEsperado(turno: Turno, arqueo: Arqueo): (r: int)
    ensures (forall k :: 0 <= k < |arqueo.ventasPorMetodo| ==> arqueo.ventasPorMetodo[k].metodo != Efectivo)
            ==> r == turno.montoInicial
    ensures forall k :: 0 <= k < |arqueo.ventasPorMetodo| && arqueo.ventasPorMetodo[k].metodo == Efectivo
                        && (forall j :: 0 <= j < k ==> arqueo.ventasPorMetodo[j].metodo != Efectivo)
              ==> r == turno.montoInicial + arqueo.ventasPorMetodo[k].total
  {
    turno.montoInicial + VentasEfectivo(arqueo.ventasPorMetodo)
  }

  /** `diferencia`: the counted cash less the expected amount, and 0 while
      the amount field is blank (`None`). */
  function Diferencia(montoFinal: Option<int>, esperado: int): (r: int)
    ensures montoFinal.None? ==> r == 0
    ensures montoFinal.Some? ==> r + esperado == montoFinal.value
  {
    if montoFinal.Some? then montoFinal.value - esperado else 0
  }

  datatype Balance = Cuadrado | Sobrante | Faltante

  /** What the balance panel shows: its heading and the sign before the amount. */
  datatype Panel = Panel(balance: Balance, titulo: string, signo: string)

  /** The panel for a difference. */
  function Clasificar(diferencia: int): (r: Panel)
    ensures r.balance == Cuadrado <==> diferencia == 0
    ensures r.balance == Sobrante <==> diferencia > 0
    ensures r.balance == Faltante <==> diferencia < 0
    ensures r.signo == "+" <==> diferencia > 0
    ensures r.signo != "+" ==> r.signo == ""
  {
    if diferencia == 0 then Panel(Cuadrado, "Cuadrado ✓", "")
    else if diferencia > 0 then Panel(Sobrante, "Sobrante", "+")
    else Panel(Faltante, "Faltante", "")
  }

  /** The panel is rendered only once an amount has been typed. */
  function PanelVisible(montoFinal: Option<int>, esperado: int): (r: Option<Panel>)
    ensures r.Some? <==> montoFinal.Some?
    ensures r.Some? ==> r.value == Clasificar(montoFinal.value - esperado)
  {
    if montoFinal.Some? then Some(Clasificar(Diferencia(montoFinal, esperado))) else None
  }

  /** `handleCerrarTurno`: a blank amount, or a cashier who does not confirm,
      sends nothing; otherwise the close request carries the amount and the notes. */
  function HandleCerrarTurno(montoFinal: Option<int>, notas: string, confirmado: bool): (r: Option<SolicitudCierre>)
    ensures r.Some? <==> montoFinal.Some? && confirmado
    ensures r.Some? ==> r.value.montoFinal == montoFinal.value && r.value.notas == Some(notas)
  {
    if montoFinal.None? || !confirmado then None
    else Some(SolicitudCierre(montoFinal.value, Some(notas)))
  }

  // The preview agrees with the close the backend performs.

  /** The report's cash group is the cash the close counts. */
  lemma VentasEfectivoDelArqueo(t: Tables, id: nat)
    ensures VentasEfectivo(Grupos(PagosCobrados(t, id), Metodos)) == EfectivoDelTurno(t, id)
  {
    var c := PagosCobrados(t, id);
    var de := Filter(c, DelMetodo(Efectivo));
    FilterFilter(t.pagos, Cobrado(t.ventas, id), DelMetodo(Efectivo), EfectivoCobrado(t.ventas, id));
    var rest := Grupos(c, Metodos[1..]);
    assert Efectivo !in Metodos[1..];
    var head: seq<GrupoMetodo> := if de == [] then [] else [GrupoMetodo(Efectivo, VentasDistintas(de), SumaMontos(de))];
    assert Grupos(c, Metodos) == head + rest;
    if de == [] {
      assert forall k :: 0 <= k < |rest| ==> rest[k] in rest;
    } else {
      assert (head + rest)[0] == head[0];
    }
  }

  lemma FindTurnoUnico(t: Tables, x: Turno)
    requires Valid(t) && x in t.turnos
    ensures FindTurno(t.turnos, x.id) == Some(x)
  {
    var k :| 0 <= k < |t.turnos| && t.turnos[k] == x;
    var f := FindTurno(t.turnos, x.id);
    var j :| 0 <= j < |t.turnos| && t.turnos[j] == f.value;
    assert j == k;
  }

  /** The page's expected cash is the backend's formula: the opening float
      plus the cash of the shift's completed sales. */
  lemma EsperadoDelArqueo(t: Tables, x: Turno, a: Arqueo)
    requires FindTurno(t.turnos, x.id) == Some(x) && ObtenerArqueo(t, x.id) == Ok(a)
    ensures MontoEsperado(x, a) == x.montoInicial + EfectivoDelTurno(t, x.id)
  {
    VentasEfectivoDelArqueo(t, x.id);
  }

  /** The close request the page sends for an open shift stores that same
      expected cash, and the difference the page previewed for it. */
  lemma CierreGuardaVistaPrevia(t: Tables, x: Turno, montoFinal: int, notas: string)
    requires Valid(t) && x in t.turnos && x.estado == Abierto
    ensures var esperado := x.montoInicial + EfectivoDelTurno(t, x.id);
      var cierre := CerrarTurnoSpec(t, x.id, HandleCerrarTurno(Some(montoFinal), notas, true).value).1;
      && cierre.Ok?
      && cierre.value.montoEsperado == Some(esperado)
      && cierre.value.diferencia == Some(Diferencia(Some(montoFinal), esperado))
  {
    assert FindTurno(t.turnos, x.id) == Some(x) by {
      FindTurnoUnico(t, x);
    }
    var req := HandleCerrarTurno(Some(montoFinal), notas, true).value;
    CerrarAbierto(t, x.id, req);
  }

  /** The page's shift is the active shift, which is open and has a report. */
  lemma ActivoConArqueo(t: Tables, usuarioId: nat, tiendaId: Option<nat>)
    requires Valid(t) && ObtenerTurnoActivo(t, usuarioId, tiendaId).Ok?
    ensures var x := ObtenerTurnoActivo(t, usuarioId, tiendaId).value.turno;
      && x in t.turnos && x.estado == Abierto
      && FindTurno(t.turnos, x.id) == Some(x) && ObtenerArqueo(t, x.id).Ok?
  {
    var x := ObtenerTurnoActivo(t, usuarioId, tiendaId).value.turno;
    FindTurnoUnico(t, x);
  }
}

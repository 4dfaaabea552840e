/** The payment dialog (frontend/src/components/POS/ModalPago.jsx). It holds
    the payment rows the cashier is splitting the sale total into and the
    change to hand back. Amounts are integer cents. */
module ModalPago {
  import opened Wrappers
  import opened Ledger

  /** A payment row of the dialog. */
  datatype FilaPago = FilaPago(metodo: MetodoPago, monto: int, referencia: string)

  function Max(a: int, b: int): (r: int)
    ensures r >= a && r >= b && (r == a || r == b)
  {
    if a >= b then a else b
  }

  /** No row has a negative amount. */
  predicate MontosNoNegativos(filas: seq<FilaPago>) {
    forall i :: 0 <= i < |filas| ==> filas[i].monto >= 0
  }

  /** `calcularTotalPagos()`: the sum of the rows' amounts. */
  function TotalPagos(filas: seq<FilaPago>): (r: int)
    ensures MontosNoNegativos(filas) ==> r >= 0
  {
    if filas == [] then 0
    else
      assert MontosNoNegativos(filas) ==> MontosNoNegativos(filas[1..]) by {
        if MontosNoNegativos(filas) {
          forall i | 0 <= i < |filas[1..]| ensures filas[1..][i].monto >= 0 {
            assert filas[1..][i] == filas[i + 1];
          }
        }
      }
      filas[0].monto + TotalPagos(filas[1..])
  }

  /** The row `agregarMetodoPago` appends: a card payment for what is still owed. */
  function FilaRestante(filas: seq<FilaPago>, total: int): (f: FilaPago)
    ensures f.metodo == Tarjeta && f.referencia == "" && f.monto >= 0
    ensures f.monto == 0 <==> TotalPagos(filas) >= total
  {
    FilaPago(Tarjeta, Max(0, total - TotalPagos(filas)), "")
  }

  /** `metodosPago.filter((_, i) => i !== index)`. */
  function SinFila(filas: seq<FilaPago>, i: nat): (r: seq<FilaPago>)
    ensures i < |filas| ==> |r| == |filas| - 1
    ensures i < |filas| ==> forall k :: 0 <= k < |r| ==> r[k] == if k < i then filas[k] else filas[k + 1]
    ensures i >= |filas| ==> r == filas
  {
    if i < |filas| then filas[..i] + filas[i + 1..] else filas
  }

  /** The mapping of `handleConfirmar`: with more than one row every row is
      sent as `mixto`; amounts and references are kept. */
  function Etiquetar(filas: seq<FilaPago>): (r: seq<FilaPago>)
    ensures |r| == |filas|
    ensures forall k :: 0 <= k < |r| ==> r[k].monto == filas[k].monto && r[k].referencia == filas[k].referencia
    ensures |filas| > 1 ==> forall k :: 0 <= k < |r| ==> r[k].metodo == Mixto
    ensures |filas| <= 1 ==> r == filas
  {
    if |filas| > 1 then seq(|filas|, k requires 0 <= k < |filas| => filas[k].(metodo := Mixto)) else filas
  }

  /** What `handleConfirmar` hands to `onConfirmar`. */
  datatype Confirmacion = Confirmacion(pagos: seq<FilaPago>, cambio: int)

  class Dialogo {
    /** The sale total the dialog was opened with. */
    const total: int
    var metodosPago: seq<FilaPago>
    var cambio: int

    /** There is always at least one row, and the change is never negative. */
    ghost predicate Valid()
      reads this
    {
      |metodosPago| >= 1 && cambio >= 0
    }

    /** The dialog opens with one cash row for the whole total and no change. */
    constructor (total: int)
      ensures Valid()
      ensures this.total == total && metodosPago == [FilaPago(Efectivo, total, "")] && cambio == 0
    {
      this.total := total;
      metodosPago := [FilaPago(Efectivo, total, "")];
      cambio := 0;
    }

    /** `actualizarMonto(index, monto)`: the row's amount becomes the typed
        number, or 0 when it does not parse (`None`). Editing a cash row
        recomputes the change from the updated rows. */
    method ActualizarMonto(i: nat, monto: Option<int>)
      requires Valid() && i < |metodosPago|
      modifies this
      ensures Valid()
      ensures metodosPago == old(metodosPago)[i := old(metodosPago)[i].(monto := monto.GetOr(0))]
      ensures old(metodosPago)[i].metodo == Efectivo ==> cambio == Max(0, TotalPagos(metodosPago) - total)
      ensures old(metodosPago)[i].metodo != Efectivo ==> cambio == old(cambio)
    {
      metodosPago := metodosPago[i := metodosPago[i].(monto := monto.GetOr(0))];
      if metodosPago[i].metodo == Efectivo {
        cambio := Max(0, TotalPagos(metodosPago) - total);
      }
    }

    /** `actualizarReferencia(index, referencia)`. */
    method ActualizarReferencia(i: nat, referencia: string)
      requires Valid() && i < |metodosPago|
      modifies this
      ensures Valid()
      ensures metodosPago == old(metodosPago)[i := old(metodosPago)[i].(referencia := referencia)]
      ensures cambio == old(cambio)
    {
      metodosPago := metodosPago[i := metodosPago[i].(referencia := referencia)];
    }

    /** `cambiarMetodo(index, metodo)`: only the row's method changes; the
        change is not recomputed. */
    method CambiarMetodo(i: nat, metodo: MetodoPago)
      requires Valid() && i < |metodosPago|
      modifies this
      ensures Valid()
      ensures metodosPago == old(metodosPago)[i := old(metodosPago)[i].(metodo := metodo)]
      ensures cambio == old(cambio)
    {
      metodosPago := metodosPago[i := metodosPago[i].(metodo := metodo)];
    }

    /** `agregarMetodoPago()`: afterwards the rows cover the total. */
    method AgregarMetodoPago()
      requires Valid()
      modifies this
      ensures Valid()
      ensures metodosPago == old(metodosPago) + [FilaRestante(old(metodosPago), total)]
      ensures TotalPagos(metodosPago) >= total
      ensures cambio == old(cambio)
    {
      var fila := FilaRestante(metodosPago, total);
      AgregarCubreTotal(metodosPago, total);
      metodosPago := metodosPago + [fila];
    }

    /** `eliminarMetodoPago(index)`: the last remaining row cannot be removed. */
    method EliminarMetodoPago(i: nat)
      requires Valid()
      modifies this
      ensures Valid()
      ensures |old(metodosPago)| > 1 ==> metodosPago == SinFila(old(metodosPago), i)
      ensures |old(metodosPago)| <= 1 ==> metodosPago == old(metodosPago)
      ensures cambio == old(cambio)
    {
      if |metodosPago| > 1 {
        metodosPago := SinFila(metodosPago, i);
      }
    }

    /** `handleConfirmar()`: refuses while the rows pay less than the total;
        otherwise passes on every row, relabelled as `Etiquetar` says, and the
        current change. */
    method HandleConfirmar() returns (r: Option<Confirmacion>)
      ensures r.None? <==> TotalPagos(metodosPago) < total
      ensures r.Some? ==> r.value.cambio == cambio && r.value.pagos == Etiquetar(metodosPago)
      ensures r.Some? ==> TotalPagos(r.value.pagos) >= total
    {
      if TotalPagos(metodosPago) < total {
        return None;
      }
      EtiquetarConservaTotal(metodosPago);
      return Some(Confirmacion(Etiquetar(metodosPago), cambio));
    }
  }

  lemma {:induction false} TotalAlFinal(filas: seq<FilaPago>, f: FilaPago)
    ensures TotalPagos(filas + [f]) == TotalPagos(filas) + f.monto
  {
    if filas != [] {
      assert (filas + [f])[1..] == filas[1..] + [f];
      TotalAlFinal(filas[1..], f);
    } else {
      assert [f][1..] == [];
    }
  }

  /** After `agregarMetodoPago` the rows pay at least the total, and exactly
      the total when they paid no more than it before. */
  lemma AgregarCubreTotal(filas: seq<FilaPago>, total: int)
    ensures TotalPagos(filas + [FilaRestante(filas, total)]) >= total
    ensures TotalPagos(filas) <= total ==> TotalPagos(filas + [FilaRestante(filas, total)]) == total
  {
    TotalAlFinal(filas, FilaRestante(filas, total));
  }

  lemma {:induction false} TotalPorMontos(a: seq<FilaPago>, b: seq<FilaPago>)
    requires |a| == |b| && forall k :: 0 <= k < |a| ==> a[k].monto == b[k].monto
    ensures TotalPagos(a) == TotalPagos(b)
  {
    if a != [] {
      TotalPorMontos(a[1..], b[1..]);
    }
  }

  /** Relabelling the rows does not change what they pay. */
  lemma EtiquetarConservaTotal(filas: seq<FilaPago>)
    ensures TotalPagos(Etiquetar(filas)) == TotalPagos(filas)
  {
    TotalPorMontos(Etiquetar(filas), filas);
  }
}

/** The point-of-sale cart (frontend/src/context/CarritoContext.jsx). The
    context keeps four pieces of state; every update builds a new value from
    the old one, so each operation is a function from cart to cart. Amounts
    are integer cents. */
module Carrito {
  import opened Wrappers
  import opened Seqs

  /** A product as the search list hands it to the cart. */
  datatype Producto = Producto(id: nat, codigo: string, nombre: string, precio: int, stock: int)

  /** A cart line. */
  datatype Item = Item(productoId: nat, codigo: string, nombre: string, precioUnitario: int, cantidad: int, descuento: int)

  /** The context's state: the lines, the discount, the tip and the client's name. */
  datatype Carrito = Carrito(items: seq<Item>, descuento: int, propina: int, clienteNombre: string)

  /** `items.find(item => item.producto_id === id)` finds a line. */
  predicate Tiene(items: seq<Item>, id: nat) {
    exists i :: 0 <= i < |items| && items[i].productoId == id
  }

  /** The invariant the cart operations keep: no product has two lines. */
  predicate UnaLineaPorProducto(items: seq<Item>) {
    forall i, j :: 0 <= i < j < |items| ==> items[i].productoId != items[j].productoId
  }

  /** How many units of a product the cart holds, over all its lines. */
  function CantidadDe(items: seq<Item>, id: nat): int {
    if items == [] then 0
    else (if items[0].productoId == id then items[0].cantidad else 0) + CantidadDe(items[1..], id)
  }

  /** The line a product gets when it first enters the cart. */
  function NuevaLinea(p: Producto, cantidad: int): Item {
    Item(p.id, p.codigo, p.nombre, p.precio, cantidad, 0)
  }

  /** The `map` of `agregarItem`: the product's lines gain `cantidad` units. */
  function SumarA(items: seq<Item>, id: nat, cantidad: int): (r: seq<Item>)
    ensures |r| == |items|
    ensures forall i :: 0 <= i < |items| ==>
      r[i] == items[i].(cantidad := items[i].cantidad + (if items[i].productoId == id then cantidad else 0))
  {
    if items == [] then []
    else
      var x := items[0];
      [if x.productoId == id then x.(cantidad := x.cantidad + cantidad) else x] + SumarA(items[1..], id, cantidad)
  }

  /** The `map` of `actualizarCantidad`: the product's lines get quantity `cantidad`. */
  function FijarCantidad(items: seq<Item>, id: nat, cantidad: int): (r: seq<Item>)
    ensures |r| == |items|
    ensures forall i :: 0 <= i < |items| ==>
      r[i] == if items[i].productoId == id then items[i].(cantidad := cantidad) else items[i]
  {
    if items == [] then []
    else
      var x := items[0];
      [if x.productoId == id then x.(cantidad := cantidad) else x] + FijarCantidad(items[1..], id, cantidad)
  }

  /** `agregarItem(producto, cantidad)`: a product already in the cart gains
      units on its line; a new one is appended with its list price and no
      discount. */
  function AgregarItem(c: Carrito, p: Producto, cantidad: int): (r: Carrito)
    ensures r.descuento == c.descuento && r.propina == c.propina && r.clienteNombre == c.clienteNombre
    ensures Tiene(c.items, p.id) ==> r.items == SumarA(c.items, p.id, cantidad)
    ensures !Tiene(c.items, p.id) ==>
      |r.items| == |c.items| + 1 && r.items[..|c.items|] == c.items && r.items[|c.items|] == NuevaLinea(p, cantidad)
  {
    if Tiene(c.items, p.id) then c.(items := SumarA(c.items, p.id, cantidad))
    else c.(items := c.items + [NuevaLinea(p, cantidad)])
  }

  function OtroProducto(id: nat): Item -> bool {
    (x: Item) => x.productoId != id
  }

  /** `eliminarItem(productoId)`: the product's lines go, the rest keep their order. */
  function EliminarItem(c: Carrito, id: nat): (r: Carrito)
    ensures r.descuento == c.descuento && r.propina == c.propina && r.clienteNombre == c.clienteNombre
    ensures !Tiene(r.items, id)
    ensures forall x :: x in r.items <==> x in c.items && x.productoId != id
    ensures IsSubsequence(r.items, c.items)
  {
    FilterIsSubsequence(c.items, OtroProducto(id));
    c.(items := Filter(c.items, OtroProducto(id)))
  }

  /** `actualizarCantidad(productoId, cantidad)`: a quantity of zero or less
      removes the product; otherwise its lines get that quantity. */
  function ActualizarCantidad(c: Carrito, id: nat, cantidad: int): (r: Carrito)
    ensures cantidad <= 0 ==> r == EliminarItem(c, id)
    ensures cantidad > 0 ==>
      && r.descuento == c.descuento && r.propina == c.propina && r.clienteNombre == c.clienteNombre
      && |r.items| == |c.items|
      && forall i :: 0 <= i < |c.items| ==>
           if c.items[i].productoId == id then r.items[i] == c.items[i].(cantidad := cantidad) else r.items[i] == c.items[i]
  {
    if cantidad <= 0 then EliminarItem(c, id)
    else c.(items := FijarCantidad(c.items, id, cantidad))
  }

  /** `limpiarCarrito()`. */
  function LimpiarCarrito(): (r: Carrito)
    ensures r.items == [] && r.descuento == 0 && r.propina == 0 && r.clienteNombre == ""
  {
    Carrito([], 0, 0, "")
  }

  /** No line has a negative price or quantity. */
  predicate SinNegativos(items: seq<Item>) {
    forall i :: 0 <= i < |items| ==> items[i].precioUnitario >= 0 && items[i].cantidad >= 0
  }

  /** `calcularSubtotal()`: the sum of price times quantity over the lines. */
  function CalcularSubtotal(items: seq<Item>): int {
    if items == [] then 0 else items[0].precioUnitario * items[0].cantidad + CalcularSubtotal(items[1..])
  }

  /** With no negative price or quantity the subtotal is not negative. */
  lemma {:induction false} SubtotalNoNegativo(items: seq<Item>)
    requires SinNegativos(items)
    ensures CalcularSubtotal(items) >= 0
  {
    if items != [] {
      forall i | 0 <= i < |items[1..]| ensures items[1..][i].precioUnitario >= 0 && items[1..][i].cantidad >= 0 {
        assert items[1..][i] == items[i + 1];
      }
      SubtotalNoNegativo(items[1..]);
      assert items[0].precioUnitario * items[0].cantidad >= 0;
    }
  }

  /** `calcularTotal()`. */
  function CalcularTotal(c: Carrito): (r: int)
    ensures c.descuento <= CalcularSubtotal(c.items) && c.propina >= 0 ==> r >= 0
    ensures c.descuento == 0 && c.propina == 0 ==> r == CalcularSubtotal(c.items)
    ensures c.descuento >= 0 ==> r <= CalcularSubtotal(c.items) + c.propina
  {
    CalcularSubtotal(c.items) - c.descuento + c.propina
  }

  /** A saved order's `datos_orden`, each field possibly absent. */
  datatype Orden = Orden(items: Option<seq<Item>>, descuento: Option<int>, propina: Option<int>, clienteNombre: Option<string>)

  /** `cargarOrden(orden)`: every field is replaced, an absent one by its empty
      value. JavaScript's `||` also replaces `0` and `''`, by themselves. */
  function CargarOrden(o: Orden): (r: Carrito)
    ensures r.items == (if o.items.Some? then o.items.value else [])
    ensures r.descuento == (if o.descuento.Some? then o.descuento.value else 0)
    ensures r.propina == (if o.propina.Some? then o.propina.value else 0)
    ensures r.clienteNombre == (if o.clienteNombre.Some? then o.clienteNombre.value else "")
  {
    Carrito(o.items.GetOr([]), o.descuento.GetOr(0), o.propina.GetOr(0), o.clienteNombre.GetOr(""))
  }

  // Properties of the cart operations.

  lemma {:induction false} SinLineaSinCantidad(items: seq<Item>, id: nat)
    requires !Tiene(items, id)
    ensures CantidadDe(items, id) == 0
  {
    if items != [] {
      SinLineaSinCantidad(items[1..], id);
    }
  }

  lemma {:induction false} UnaLineaCola(items: seq<Item>)
    requires items != [] && UnaLineaPorProducto(items)
    ensures UnaLineaPorProducto(items[1..]) && !Tiene(items[1..], items[0].productoId)
  {
    forall k | 0 <= k < |items[1..]| ensures items[1..][k].productoId != items[0].productoId {
      assert items[1..][k] == items[k + 1];
    }
  }

  /** Adding to a cart with one line per product keeps one line per product. */
  lemma AgregarPreservaUnaLinea(c: Carrito, p: Producto, cantidad: int)
    requires UnaLineaPorProducto(c.items)
    ensures UnaLineaPorProducto(AgregarItem(c, p, cantidad).items)
  {
    var r := AgregarItem(c, p, cantidad).items;
    if !Tiene(c.items, p.id) {
      forall i, j | 0 <= i < j < |r| ensures r[i].productoId != r[j].productoId {
        if j == |c.items| {
          assert r[i] == c.items[i];
        } else {
          assert r[i] == c.items[i] && r[j] == c.items[j];
        }
      }
    }
  }

  lemma UnaLineaCons(x: Item, rest: seq<Item>)
    requires UnaLineaPorProducto(rest) && !Tiene(rest, x.productoId)
    ensures UnaLineaPorProducto([x] + rest)
  {
    var r := [x] + rest;
    forall i, j | 0 <= i < j < |r| ensures r[i].productoId != r[j].productoId {
      assert r[j] == rest[j - 1];
      if i > 0 {
        assert r[i] == rest[i - 1];
      }
    }
  }

  lemma TieneCola(items: seq<Item>, id: nat)
    requires items != []
    ensures Tiene(items, id) <==> items[0].productoId == id || Tiene(items[1..], id)
  {
    if Tiene(items[1..], id) {
      var k :| 0 <= k < |items[1..]| && items[1..][k].productoId == id;
      assert items[k + 1].productoId == id;
    }
    if Tiene(items, id) && items[0].productoId != id {
      var k :| 0 <= k < |items| && items[k].productoId == id;
      assert items[1..][k - 1].productoId == id;
    }
  }

  lemma {:induction false} EliminarUnaLinea(items: seq<Item>, id: nat)
    requires UnaLineaPorProducto(items)
    ensures UnaLineaPorProducto(Filter(items, OtroProducto(id)))
  {
    if items != [] {
      UnaLineaCola(items);
      EliminarUnaLinea(items[1..], id);
      var rest := Filter(items[1..], OtroProducto(id));
      if items[0].productoId != id {
        assert !Tiene(rest, items[0].productoId) by {
          forall k | 0 <= k < |rest| ensures rest[k].productoId != items[0].productoId {
            assert rest[k] in items[1..];
          }
        }
        UnaLineaCons(items[0], rest);
      }
    }
  }

  /** Removing and updating keep one line per product. */
  lemma EliminarYActualizarPreservanUnaLinea(c: Carrito, id: nat, cantidad: int)
    requires UnaLineaPorProducto(c.items)
    ensures UnaLineaPorProducto(EliminarItem(c, id).items)
    ensures UnaLineaPorProducto(ActualizarCantidad(c, id, cantidad).items)
  {
    EliminarUnaLinea(c.items, id);
  }

  lemma {:induction false} SumarUnaVez(items: seq<Item>, id: nat, cantidad: int, x: nat)
    requires UnaLineaPorProducto(items)
    ensures CantidadDe(SumarA(items, id, cantidad), x)
            == CantidadDe(items, x) + (if x == id && Tiene(items, id) then cantidad else 0)
  {
    if items != [] {
      UnaLineaCola(items);
      TieneCola(items, id);
      SumarUnaVez(items[1..], id, cantidad, x);
      assert SumarA(items, id, cantidad)[1..] == SumarA(items[1..], id, cantidad);
      if items[0].productoId == id && x == id {
        SinLineaSinCantidad(items[1..], id);
      }
    }
  }

  lemma {:induction false} CantidadAlFinal(items: seq<Item>, y: Item, x: nat)
    ensures CantidadDe(items + [y], x) == CantidadDe(items, x) + (if y.productoId == x then y.cantidad else 0)
  {
    if items != [] {
      assert (items + [y])[1..] == items[1..] + [y];
      CantidadAlFinal(items[1..], y, x);
    } else {
      assert [y][1..] == [];
    }
  }

  /** `agregarItem(p, q)` on a cart with one line per product adds `q` units of
      `p` and leaves every other product's quantity as it was. */
  lemma AgregarCantidad(c: Carrito, p: Producto, cantidad: int, x: nat)
    requires UnaLineaPorProducto(c.items)
    ensures CantidadDe(AgregarItem(c, p, cantidad).items, x) == CantidadDe(c.items, x) + (if x == p.id then cantidad else 0)
  {
    if Tiene(c.items, p.id) {
      SumarUnaVez(c.items, p.id, cantidad, x);
    } else {
      CantidadAlFinal(c.items, NuevaLinea(p, cantidad), x);
      assert AgregarItem(c, p, cantidad).items == c.items + [NuevaLinea(p, cantidad)];
    }
  }

  lemma {:induction false} FijarUnaVez(items: seq<Item>, id: nat, cantidad: int, x: nat)
    requires UnaLineaPorProducto(items)
    ensures CantidadDe(FijarCantidad(items, id, cantidad), x)
            == if x == id && Tiene(items, id) then cantidad else CantidadDe(items, x)
  {
    if items != [] {
      UnaLineaCola(items);
      TieneCola(items, id);
      FijarUnaVez(items[1..], id, cantidad, x);
      assert FijarCantidad(items, id, cantidad)[1..] == FijarCantidad(items[1..], id, cantidad);
      if items[0].productoId == id && x == id {
        SinLineaSinCantidad(items[1..], id);
        assert !Tiene(FijarCantidad(items[1..], id, cantidad), id);
        SinLineaSinCantidad(FijarCantidad(items[1..], id, cantidad), id);
      }
    }
  }

  lemma {:induction false} EliminarCantidadDe(items: seq<Item>, id: nat, x: nat)
    ensures CantidadDe(Filter(items, OtroProducto(id)), x) == if x == id then 0 else CantidadDe(items, x)
  {
    if items != [] {
      EliminarCantidadDe(items[1..], id, x);
    }
  }

  /** `actualizarCantidad(id, q)` on a cart holding `id`: a positive `q` becomes
      its quantity, a non-positive one removes it, and every other product
      keeps its quantity. */
  lemma ActualizarCantidadDe(c: Carrito, id: nat, cantidad: int, x: nat)
    requires UnaLineaPorProducto(c.items) && Tiene(c.items, id)
    ensures CantidadDe(ActualizarCantidad(c, id, cantidad).items, x)
            == if x != id then CantidadDe(c.items, x) else if cantidad <= 0 then 0 else cantidad
  {
    if cantidad <= 0 {
      EliminarCantidadDe(c.items, id, x);
    } else {
      FijarUnaVez(c.items, id, cantidad, x);
    }
  }

  lemma {:induction false} SubtotalSumar(items: seq<Item>, id: nat, precio: int, cantidad: int)
    requires UnaLineaPorProducto(items)
    requires forall i :: 0 <= i < |items| && items[i].productoId == id ==> items[i].precioUnitario == precio
    ensures CalcularSubtotal(SumarA(items, id, cantidad))
            == CalcularSubtotal(items) + (if Tiene(items, id) then precio * cantidad else 0)
  {
    if items != [] {
      UnaLineaCola(items);
      TieneCola(items, id);
      SubtotalSumar(items[1..], id, precio, cantidad);
      assert SumarA(items, id, cantidad)[1..] == SumarA(items[1..], id, cantidad);
      if items[0].productoId == id {
        assert SumarA(items[1..], id, cantidad) == items[1..];
        calc {
          items[0].precioUnitario * (items[0].cantidad + cantidad);
          items[0].precioUnitario * items[0].cantidad + precio * cantidad;
        }
      }
    }
  }

  lemma {:induction false} SubtotalAlFinal(items: seq<Item>, y: Item)
    ensures CalcularSubtotal(items + [y]) == CalcularSubtotal(items) + y.precioUnitario * y.cantidad
  {
    if items != [] {
      assert (items + [y])[1..] == items[1..] + [y];
      SubtotalAlFinal(items[1..], y);
    } else {
      assert [y][1..] == [];
    }
  }

  /** While the cart's lines carry the product's list price, adding `q` units
      of it raises the subtotal, and so the total, by `precio * q`. */
  lemma AgregarSubtotal(c: Carrito, p: Producto, cantidad: int)
    requires UnaLineaPorProducto(c.items)
    requires forall i :: 0 <= i < |c.items| && c.items[i].productoId == p.id ==> c.items[i].precioUnitario == p.precio
    ensures CalcularSubtotal(AgregarItem(c, p, cantidad).items) == CalcularSubtotal(c.items) + p.precio * cantidad
    ensures CalcularTotal(AgregarItem(c, p, cantidad)) == CalcularTotal(c) + p.precio * cantidad
  {
    if Tiene(c.items, p.id) {
      SubtotalSumar(c.items, p.id, p.precio, cantidad);
    } else {
      SubtotalAlFinal(c.items, NuevaLinea(p, cantidad));
      assert AgregarItem(c, p, cantidad).items == c.items + [NuevaLinea(p, cantidad)];
    }
  }

  /** A cleared cart totals nothing, and a cart loaded from an empty order is a cleared cart. */
  lemma LimpiarVacio()
    ensures CalcularTotal(LimpiarCarrito()) == 0
    ensures CargarOrden(Orden(None, None, None, None)) == LimpiarCarrito()
  {
  }
}

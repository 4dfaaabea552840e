/** The navigation menu (frontend/src/components/Sidebar.jsx): a constant
    table of entries, each with the roles allowed to see it, filtered by the
    user's role. */
module Sidebar {
  import opened Seqs
  import opened Auth

  datatype MenuItem = MenuItem(nombre: string, ruta: string, roles: seq<Rol>)

  const Dashboard := MenuItem("Dashboard", "/dashboard", [SuperAdmin, Administrador, Cajero, Supervisor])
  const Tiendas := MenuItem("Tiendas", "/tiendas", [SuperAdmin])
  const PuntoDeVenta := MenuItem("Punto de Venta", "/pos", [Administrador, Cajero, Supervisor])
  const Productos := MenuItem("Productos", "/productos", [Administrador, Supervisor])
  const Reportes := MenuItem("Reportes", "/reportes", [Administrador, Supervisor])
  const Clientes := MenuItem("Clientes", "/clientes", [Administrador, Supervisor])
  const Configuracion := MenuItem("Configuración", "/configuracion", [Administrador])

  /** `menuItems`, in display order. */
  const MenuItems: seq<MenuItem> := [Dashboard, Tiendas, PuntoDeVenta, Productos, Reportes, Clientes, Configuracion]

  function VisiblePara(rol: Rol): MenuItem -> bool {
    (item: MenuItem) => rol in item.roles
  }

  /** `menuItems.filter(item => item.roles.includes(usuario.rol))`: the
      entries for the role, in table order. */
  function MenuItemsFiltrados(rol: Rol): (r: seq<MenuItem>)
    ensures forall item :: item in r <==> item in MenuItems && rol in item.roles
    ensures IsSubsequence(r, MenuItems)
  {
    FilterIsSubsequence(MenuItems, VisiblePara(rol));
    Filter(MenuItems, VisiblePara(rol))
  }

  /** An entry of the table is shown exactly to the roles it lists. */
  lemma Visible(item: MenuItem, rol: Rol)
    requires item in MenuItems
    ensures item in MenuItemsFiltrados(rol) <==> rol in item.roles
  {
  }

  /** Every role the table knows sees the dashboard; only super_admin sees
      the stores, and only administrador the settings. */
  lemma Exclusivas(rol: Rol)
    ensures !rol.Otro? ==> Dashboard in MenuItemsFiltrados(rol)
    ensures Tiendas in MenuItemsFiltrados(rol) <==> rol == SuperAdmin
    ensures Configuracion in MenuItemsFiltrados(rol) <==> rol == Administrador
  {
    assert MenuItems[0] == Dashboard && MenuItems[1] == Tiendas && MenuItems[6] == Configuracion;
    Visible(Dashboard, rol);
    Visible(Tiendas, rol);
    Visible(Configuracion, rol);
    assert Tiendas.roles == [SuperAdmin];
    assert Configuracion.roles == [Administrador];
  }

  /** Filtering a table one entry at a time. */
  lemma {:induction false} FiltrarCabeza(x: MenuItem, resto: seq<MenuItem>, f: MenuItem -> bool)
    ensures Filter([x] + resto, f) == (if f(x) then [x] else []) + Filter(resto, f)
  {
    assert ([x] + resto)[0] == x;
    assert ([x] + resto)[1..] == resto;
  }

  /** Of a table where only the entry at index `i` is shown, only that one. */
  lemma {:induction false} FiltrarSolo(ys: seq<MenuItem>, i: nat, f: MenuItem -> bool)
    requires i < |ys| && f(ys[i])
    requires forall k :: 0 <= k < |ys| && k != i ==> !f(ys[k])
    ensures Filter(ys, f) == [ys[i]]
  {
    assert ys == ys[..i] + ([ys[i]] + ys[i + 1..]);
    FilterAppend(ys[..i], [ys[i]] + ys[i + 1..], f);
    FilterNone(ys[..i], f);
    FiltrarCabeza(ys[i], ys[i + 1..], f);
    FilterNone(ys[i + 1..], f);
  }

  /** Of a table whose first entry is shown, exactly the one other entry
      at index `j` shown. */
  lemma {:induction false} FiltrarPrimeroY(xs: seq<MenuItem>, j: nat, f: MenuItem -> bool)
    requires 0 < j < |xs| && f(xs[0]) && f(xs[j])
    requires forall k :: 0 < k < |xs| && k != j ==> !f(xs[k])
    ensures Filter(xs, f) == [xs[0], xs[j]]
  {
    assert xs == [xs[0]] + xs[1..];
    FiltrarCabeza(xs[0], xs[1..], f);
    FiltrarSolo(xs[1..], j - 1, f);
  }

  /** A cashier sees the dashboard and the point of sale, nothing else. */
  lemma MenuCajero()
    ensures MenuItemsFiltrados(Cajero) == [Dashboard, PuntoDeVenta]
  {
    FiltrarPrimeroY(MenuItems, 2, VisiblePara(Cajero));
  }

  /** A super_admin sees the dashboard and the stores, nothing else. */
  lemma MenuSuperAdmin()
    ensures MenuItemsFiltrados(SuperAdmin) == [Dashboard, Tiendas]
  {
    FiltrarPrimeroY(MenuItems, 1, VisiblePara(SuperAdmin));
  }

  /** A role the table does not name sees no entry. */
  lemma MenuOtro(nombre: string)
    ensures MenuItemsFiltrados(Otro(nombre)) == []
  {
    var f := VisiblePara(Otro(nombre));
    forall k | 0 <= k < |MenuItems| ensures !f(MenuItems[k]) {
      assert forall r :: r in MenuItems[k].roles ==> !r.Otro?;
    }
    FilterNone(MenuItems, f);
  }
}

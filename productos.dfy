/** The product catalogue queries (backend/controllers/productosController.js):
    the search list, the lookup by code and the category list. The SQL is
    modelled by what it selects and in which order; `LIKE '%term%'` is
    substring containment (collation and case folding are not modelled). */
module Productos {
  import opened Wrappers
  import opened Text
  import opened Seqs

  /** A row of `productos`; `codigoBarras` and `categoriaId` may be NULL. */
  datatype Producto = Producto(
    id: nat,
    codigo: string,
    codigoBarras: Option<string>,
    nombre: string,
    categoriaId: Option<nat>,
    precio: int,
    stock: int,
    activo: bool)

  /** A row of `categorias`. */
  datatype Categoria = Categoria(id: nat, nombre: string, activo: bool)

  const NoEncontrado := "Producto no encontrado"

  /** `p.codigo LIKE ? OR p.nombre LIKE ? OR p.codigo_barras = ?`. */
  predicate CoincideBusqueda(p: Producto, busqueda: string) {
    Contains(p.codigo, busqueda) || Contains(p.nombre, busqueda) || p.codigoBarras == Some(busqueda)
  }

  /** The `WHERE` of `obtenerProductos`: active products; with a non-empty
      search term, those matching it; with a category, those in it. An empty
      `busqueda` is falsy in JavaScript and adds no condition. */
  function Listado(busqueda: string, categoria: Option<nat>): Producto -> bool {
    (p: Producto) =>
      && p.activo
      && (busqueda != "" ==> CoincideBusqueda(p, busqueda))
      && (categoria.Some? ==> p.categoriaId == categoria)
  }

  function PorNombre(a: Producto, b: Producto): bool {
    LexLe(a.nombre, b.nombre)
  }

  function CategoriaPorNombre(a: Categoria, b: Categoria): bool {
    LexLe(a.nombre, b.nombre)
  }

  /** `ORDER BY nombre` is a total preorder on products and on categories. */
  lemma OrdenPorNombre()
    ensures TotalPreorder(PorNombre) && TotalPreorder(CategoriaPorNombre)
  {
    forall a: string, b: string ensures LexLe(a, b) || LexLe(b, a) {
      LexLeTotal(a, b);
    }
    forall a: string, b: string, c: string | LexLe(a, b) && LexLe(b, c) ensures LexLe(a, c) {
      LexLeTransitive(a, b, c);
    }
  }

  /** `GET /productos?busqueda=&categoria=`: exactly the listed products,
      each as often as in the table, ordered by name. */
  function ObtenerProductos(productos: seq<Producto>, busqueda: string, categoria: Option<nat>): (r: seq<Producto>)
    ensures forall p :: p in r <==> p in productos && Listado(busqueda, categoria)(p)
    ensures multiset(r) == multiset(Filter(productos, Listado(busqueda, categoria)))
    ensures SortedBy(r, PorNombre)
  {
    var elegidos := Filter(productos, Listado(busqueda, categoria));
    OrdenPorNombre();
    SortBySorted(elegidos, PorNombre);
    var r := SortBy(elegidos, PorNombre);
    assert forall p :: p in r <==> p in multiset(r);
    assert forall p :: p in elegidos <==> p in multiset(elegidos);
    r
  }

  /** `p.activo = 1 AND (p.codigo = ? OR p.codigo_barras = ?)`. */
  predicate ConCodigo(p: Producto, codigo: string) {
    p.activo && (p.codigo == codigo || p.codigoBarras == Some(codigo))
  }

  /** No product before index `i` has the code. */
  predicate Primero(productos: seq<Producto>, i: nat, codigo: string)
    requires i <= |productos|
  {
    forall j :: 0 <= j < i ==> !ConCodigo(productos[j], codigo)
  }

  /** `GET /productos/buscar/:codigo`: the first active product whose code or
      barcode is exactly `codigo`, or 404. */
  function BuscarProducto(productos: seq<Producto>, codigo: string): (r: Outcome<Producto>)
    ensures r.Fail? <==> forall i :: 0 <= i < |productos| ==> !ConCodigo(productos[i], codigo)
    ensures r.Fail? ==> r == Fail(404, NoEncontrado)
    ensures r.Ok? ==> r.value in productos && ConCodigo(r.value, codigo)
    ensures r.Ok? ==> exists i :: 0 <= i < |productos| && productos[i] == r.value && Primero(productos, i, codigo)
  {
    if productos == [] then Fail(404, NoEncontrado)
    else if ConCodigo(productos[0], codigo) then Ok(productos[0])
    else
      var r := BuscarProducto(productos[1..], codigo);
      if r.Ok? then
        var i :| 0 <= i < |productos[1..]| && productos[1..][i] == r.value && Primero(productos[1..], i, codigo);
        assert productos[i + 1] == r.value;
        assert Primero(productos, i + 1, codigo) by {
          forall j | 0 < j < i + 1 ensures !ConCodigo(productos[j], codigo) {
            assert productos[j] == productos[1..][j - 1];
          }
        }
        r
      else
        assert forall i :: 0 < i < |productos| ==> productos[i] == productos[1..][i - 1];
        r
  }

  function CategoriaActiva(c: Categoria): bool { c.activo }

  /** `GET /productos/categorias`: the active categories, ordered by name. */
  function ObtenerCategorias(categorias: seq<Categoria>): (r: seq<Categoria>)
    ensures forall c :: c in r <==> c in categorias && c.activo
    ensures multiset(r) == multiset(Filter(categorias, CategoriaActiva))
    ensures SortedBy(r, CategoriaPorNombre)
  {
    var activas := Filter(categorias, CategoriaActiva);
    OrdenPorNombre();
    SortBySorted(activas, CategoriaPorNombre);
    var r := SortBy(activas, CategoriaPorNombre);
    assert forall c :: c in r <==> c in multiset(r);
    assert forall c :: c in activas <==> c in multiset(activas);
    r
  }

  /** An inactive product is never listed and never found. */
  lemma InactivoInvisible(productos: seq<Producto>, p: Producto, busqueda: string, categoria: Option<nat>, codigo: string)
    requires !p.activo
    ensures p !in ObtenerProductos(productos, busqueda, categoria)
    ensures BuscarProducto(productos, codigo) != Ok(p)
  {
  }

  /** Without a search term or category the list is every active product. */
  lemma SinFiltros(productos: seq<Producto>)
    ensures forall p :: p in ObtenerProductos(productos, "", None) <==> p in productos && p.activo
  {
  }

  /** The category filter narrows the list: it keeps exactly the listed
      products of that category. */
  lemma CategoriaEstrecha(productos: seq<Producto>, busqueda: string, categoria: nat)
    ensures forall p :: p in ObtenerProductos(productos, busqueda, Some(categoria))
              <==> p in ObtenerProductos(productos, busqueda, None) && p.categoriaId == Some(categoria)
  {
  }
}

/** The product catalogue: the search filter and page of `obtener_productos`, the checks
    and defaults of `registrar_producto`, the filter of `eliminar_producto`, and the
    checks and field patch of `editar_producto`. The store applies them to its list in
    `Tienda.Store`. */
module Productos {
  import opened Common

  /** One entry of `productos.json`. */
  datatype Product = Product(
    id: int,
    nombre: string,
    descripcion: string,
    precio: real,
    stock: int,
    categoria: string)

  const DatosIncompletos := "Datos incompletos"
  const NombreObligatorio := "El nombre es obligatorio"
  const PrecioInvalido := "El precio debe ser un número positivo"
  const StockInvalido := "El stock debe ser un entero mayor o igual a 0"
  const ProductoNoEncontrado := "Producto no encontrado"
  const SinCategoria := "Sin categoría"

  /** What registration and editing guarantee of every stored product: a name that is not
      blank, a positive price and a stock that is not negative. */
  predicate Sellable(p: Product) {
    Strip(p.nombre) != "" && p.precio > 0.0 && p.stock >= 0
  }

  // ---------- obtener_productos ----------

  /** The `search` query argument, stripped and lower-cased; "" when absent. */
  function SearchTerm(arg: Option<string>): string {
    Lower(Strip(arg.GetOr("")))
  }

  /** The term occurs in the lower-cased name or the lower-cased description. */
  predicate Matches(p: Product, term: string) {
    Contains(Lower(p.nombre), term) || Contains(Lower(p.descripcion), term)
  }

  /** The search filter: a product is kept exactly when it matches the term, in the
      catalogue's order and as often as it occurs there (the comprehension), and an empty
      term (which every product matches) keeps the list as it is. */
  function Search(ps: seq<Product>, arg: Option<string>): (r: seq<Product>)
    ensures |r| <= |ps|
    ensures forall p | p in r :: p in ps && Matches(p, SearchTerm(arg))
    ensures forall p | p in ps && Matches(p, SearchTerm(arg)) :: p in r
    ensures SearchTerm(arg) == "" ==> r == ps
    ensures SearchTerm(arg) != "" ==> r == Filter(ps, (p: Product) => Matches(p, SearchTerm(arg)))
  {
    var term := SearchTerm(arg);
    if term == "" then
      assert forall p | p in ps :: Matches(p, term) by {
        forall p | p in ps ensures Matches(p, term) {
          assert OccursAt(Lower(p.nombre), term, 0);
        }
      }
      ps
    else
      FilterSubset(ps, (p: Product) => Matches(p, term));
      FilterComplete(ps, (p: Product) => Matches(p, term));
      Filter(ps, (p: Product) => Matches(p, term))
  }

  /** The JSON `obtener_productos` answers with. */
  datatype ProductPage = ProductPage(
    productos: seq<Product>, page: int, perPage: int, total: nat, totalPages: nat)

  /** `obtener_productos`: search, then cut out one page. */
  function ObtenerProductos(ps: seq<Product>, search: Option<string>,
                            pageArg: Option<string>, perPageArg: Option<string>): (r: ProductPage)
    requires PagingOk(pageArg, perPageArg)
    ensures r.page == PagingArgs(pageArg, perPageArg).0 && r.perPage == PagingArgs(pageArg, perPageArg).1
    ensures r.page >= 1 && r.perPage >= 1
    ensures r.total == |Search(ps, search)| <= |ps|
    ensures r.totalPages == TotalPages(r.total, r.perPage)
    ensures r.productos == Page(Search(ps, search), r.page, r.perPage)
    ensures forall p | p in r.productos :: p in ps && Matches(p, SearchTerm(search))
  {
    var args := PagingArgs(pageArg, perPageArg);
    var found := Search(ps, search);
    PageWithin(found, args.0, args.1);
    ProductPage(Page(found, args.0, args.1), args.0, args.1, |found|, TotalPages(|found|, args.1))
  }

  // ---------- registrar_producto ----------

  /** The fields of a product request body; each is None when its key is absent. */
  datatype ProductoDatos = ProductoDatos(
    nombre: Option<Value>,
    precio: Option<Value>,
    stock: Option<Value>,
    descripcion: Option<string>,
    categoria: Option<string>)

  /** `isinstance(nombre, str) and nombre.strip()`. */
  predicate NombreValido(v: Value) {
    v.Str? && Strip(v.s) != ""
  }

  /** `isinstance(precio, (int, float)) and precio > 0`. */
  predicate PrecioValido(v: Value) {
    IsNumber(v) && NumberOf(v) > 0.0
  }

  /** `isinstance(stock, int) and stock >= 0`. */
  predicate StockValido(v: Value) {
    IsInteger(v) && IntegerOf(v) >= 0
  }

  predicate Completos(d: ProductoDatos) {
    d.nombre.Some? && d.precio.Some? && d.stock.Some?
  }

  /** `registrar_producto`: the checks in their order, then the new product with id
      `len(productos) + 1`, the stripped name and the defaults for the optional fields. */
  function RegistrarProducto(ps: seq<Product>, d: ProductoDatos): (r: Result<Product>)
    ensures r.Ok? <==> Completos(d) && NombreValido(d.nombre.value)
                       && PrecioValido(d.precio.value) && StockValido(d.stock.value)
    ensures !Completos(d) ==> r == Err(DatosIncompletos)
    ensures Completos(d) && !NombreValido(d.nombre.value) ==> r == Err(NombreObligatorio)
    ensures (Completos(d) && NombreValido(d.nombre.value) && !PrecioValido(d.precio.value))
              ==> r == Err(PrecioInvalido)
    ensures (Completos(d) && NombreValido(d.nombre.value) && PrecioValido(d.precio.value)
             && !StockValido(d.stock.value)) ==> r == Err(StockInvalido)
    ensures r.Ok? ==> Sellable(r.value) && r.value.id == |ps| + 1
    ensures r.Ok? ==> r.value.nombre == Strip(d.nombre.value.s)
                      && r.value.precio == NumberOf(d.precio.value)
                      && r.value.stock == IntegerOf(d.stock.value)
                      && r.value.descripcion == d.descripcion.GetOr("")
                      && r.value.categoria == d.categoria.GetOr(SinCategoria)
  {
    if !Completos(d) then Err(DatosIncompletos)
    else if !NombreValido(d.nombre.value) then Err(NombreObligatorio)
    else if !PrecioValido(d.precio.value) then Err(PrecioInvalido)
    else if !StockValido(d.stock.value) then Err(StockInvalido)
    else
      var nombre := Strip(d.nombre.value.s);
      StripIdempotent(d.nombre.value.s);
      Ok(Product(|ps| + 1, nombre, d.descripcion.GetOr(""), NumberOf(d.precio.value),
                 IntegerOf(d.stock.value), d.categoria.GetOr(SinCategoria)))
  }

  /** The ids `1 .. len` in order: what a list built by registrations alone looks like. */
  predicate DenseIds(ps: seq<Product>) {
    forall i | 0 <= i < |ps| :: ps[i].id == i + 1
  }

  /** While nothing was deleted, `len + 1` is a fresh id and the list stays dense. */
  lemma NewIdFreshWhileDense(ps: seq<Product>, d: ProductoDatos)
    requires DenseIds(ps)
    requires RegistrarProducto(ps, d).Ok?
    ensures forall p | p in ps :: p.id != RegistrarProducto(ps, d).value.id
    ensures DenseIds(ps + [RegistrarProducto(ps, d).value])
  {
  }

  /** After a deletion `len + 1` can repeat an id still in use: with products 1 and 2,
      deleting 1 and registering gives a second product with id 2. */
  lemma NewIdCanRepeatAfterDelete(a: Product, b: Product, d: ProductoDatos)
    requires a.id == 1 && b.id == 2
    requires RegistrarProducto([b], d).Ok?
    ensures EliminarProducto([a, b], 1) == Ok([b])
    ensures RegistrarProducto(EliminarProducto([a, b], 1).value, d).value.id == b.id
  {
    var r := EliminarProducto([a, b], 1);
    assert b in r.value;
    assert a !in r.value;
    assert r.value == [b];
  }

  // ---------- eliminar_producto ----------

  /** `eliminar_producto`: every product with the id goes; "not found" exactly when none
      has it (the length did not change). */
  function EliminarProducto(ps: seq<Product>, id: int): (r: Result<seq<Product>>)
    ensures r.Err? <==> forall i | 0 <= i < |ps| :: ps[i].id != id
    ensures r.Err? ==> r.error == ProductoNoEncontrado
    ensures r.Ok? ==> |r.value| < |ps|
    ensures r.Ok? ==> forall p :: p in r.value <==> p in ps && p.id != id
    ensures r.Ok? ==> r.value == Filter(ps, (p: Product) => p.id != id)
  {
    var keep := Filter(ps, (p: Product) => p.id != id);
    FilterSubset(ps, (p: Product) => p.id != id);
    FilterComplete(ps, (p: Product) => p.id != id);
    if |keep| == |ps| then Err(ProductoNoEncontrado) else Ok(keep)
  }

  // ---------- editar_producto ----------

  /** The checks of `editar_producto`, each applied only to a field the body carries. */
  function ValidarEdicion(d: ProductoDatos): (r: Option<string>)
    ensures r.None? <==> (d.nombre.Some? ==> NombreValido(d.nombre.value))
                         && (d.precio.Some? ==> PrecioValido(d.precio.value))
                         && (d.stock.Some? ==> StockValido(d.stock.value))
    ensures d.nombre.Some? && !NombreValido(d.nombre.value) ==> r == Some(NombreObligatorio)
    ensures ((d.nombre.None? || NombreValido(d.nombre.value)) && d.precio.Some? && !PrecioValido(d.precio.value))
              ==> r == Some(PrecioInvalido)
    ensures ((d.nombre.None? || NombreValido(d.nombre.value)) && (d.precio.None? || PrecioValido(d.precio.value))
             && d.stock.Some? && !StockValido(d.stock.value)) ==> r == Some(StockInvalido)
    ensures r.Some? ==> r.value in {NombreObligatorio, PrecioInvalido, StockInvalido}
  {
    if d.nombre.Some? && !NombreValido(d.nombre.value) then Some(NombreObligatorio)
    else if d.precio.Some? && !PrecioValido(d.precio.value) then Some(PrecioInvalido)
    else if d.stock.Some? && !StockValido(d.stock.value) then Some(StockInvalido)
    else None
  }

  /** `data.get(field, old)` for each field: a field the body carries replaces the old
      value as sent (the name is not stripped here), the others are kept. */
  function Editado(p: Product, d: ProductoDatos): (q: Product)
    requires ValidarEdicion(d).None?
    ensures q.id == p.id
    ensures q.nombre == (if d.nombre.Some? then d.nombre.value.s else p.nombre)
    ensures q.precio == (if d.precio.Some? then NumberOf(d.precio.value) else p.precio)
    ensures q.stock == (if d.stock.Some? then IntegerOf(d.stock.value) else p.stock)
    ensures q.descripcion == (if d.descripcion.Some? then d.descripcion.value else p.descripcion)
    ensures q.categoria == (if d.categoria.Some? then d.categoria.value else p.categoria)
  {
    Product(
      p.id,
      if d.nombre.Some? then d.nombre.value.s else p.nombre,
      d.descripcion.GetOr(p.descripcion),
      if d.precio.Some? then NumberOf(d.precio.value) else p.precio,
      if d.stock.Some? then IntegerOf(d.stock.value) else p.stock,
      d.categoria.GetOr(p.categoria))
  }

  /** An accepted edit keeps the id, keeps every field the body leaves out, and keeps the
      product sellable. */
  lemma EditKeepsSellable(p: Product, d: ProductoDatos)
    requires ValidarEdicion(d).None?
    requires Sellable(p)
    ensures Sellable(Editado(p, d))
    ensures Editado(p, d).id == p.id
    ensures d.nombre.None? ==> Editado(p, d).nombre == p.nombre
    ensures d.descripcion.None? ==> Editado(p, d).descripcion == p.descripcion
    ensures d.precio.None? ==> Editado(p, d).precio == p.precio
    ensures d.stock.None? ==> Editado(p, d).stock == p.stock
    ensures d.categoria.None? ==> Editado(p, d).categoria == p.categoria
  {
  }

  /** An empty body changes nothing. */
  lemma EmptyEditIsIdentity(p: Product)
    ensures Editado(p, ProductoDatos(None, None, None, None, None)) == p
  {
  }
}

/** The store behind the HTTP endpoints: the seven JSON files as fields of one object, and
    one method per endpoint that writes them. The clock and the uuid generator become
    parameters (`now`, `id`); each rejected request leaves every file as it was; every
    endpoint keeps the balance reconciled with the ledger, every product sellable, user ids
    unique and payment ids counted. The read-only endpoints are the functions of the other
    modules applied to these fields. */
module Tienda {
  import opened Common
  import opened Calendar
  import opened Caja
  import opened Productos
  import opened Usuarios
  import opened Ventas
  import opened Pagos
  import opened Facturas

  /** The status and body of an answer. A missing product in a sale is answered with 404
      "Producto con id <id> no encontrado", built from the item's id. */
  datatype Answer =
    | Done(status: int, message: string)
    | Failed(status: int, error: string)
    | ProductoFaltante(id: Value)

  const IngresoRegistrado := "Ingreso registrado correctamente"
  const EgresoRegistrado := "Egreso registrado correctamente"
  const VentaRegistrada := "Venta registrada"
  const VentaActualizada := "Venta actualizada correctamente"
  const VentaEliminada := "Venta eliminada correctamente"
  const PagoRegistrado := "Pago y egreso registrados correctamente"
  const FacturaGenerada := "Factura generada correctamente"
  const ProductoRegistrado := "Producto registrado correctamente"
  const ProductoEliminado := "Producto eliminado correctamente"
  const ProductoActualizado := "Producto actualizado correctamente"
  const UsuarioRegistrado := "Usuario registrado"
  const UsuarioActualizado := "Usuario actualizado"
  const UsuarioEliminado := "Usuario eliminado"

  /** The product `editar_producto` edits: the first whose id equals `id`. */
  function ProductIndex(ps: seq<Product>, id: int): (r: Option<nat>)
    ensures r.None? <==> forall j | 0 <= j < |ps| :: ps[j].id != id
    ensures r.Some? ==> r.value < |ps| && ps[r.value].id == id
                        && forall j | 0 <= j < r.value :: ps[j].id != id
  {
    FirstIndex(ps, (p: Product) => p.id == id)
  }

  /** The user `actualizar_usuario` updates: the first whose id equals `id`. */
  function UserIndex(us: seq<User>, id: int): (r: Option<nat>)
    ensures r.None? <==> forall j | 0 <= j < |us| :: us[j].id != id
    ensures r.Some? ==> r.value < |us| && us[r.value].id == id
                        && forall j | 0 <= j < r.value :: us[j].id != id
  {
    FirstIndex(us, (u: User) => u.id == id)
  }

  /** The credit a sale writes to the ledger: same id as the sale, its total, and the next
      "Venta #n" description. */
  function SaleCredit(ms: seq<Movement>, s: Sale): (m: Movement)
    ensures m.id == s.id && m.tipo == Ingreso && m.monto == s.total && m.fecha == s.fecha
    ensures m.descripcion == Str(DescripcionVenta(ms)) && m.detalles.None? && m.facturaId.None?
  {
    Movement(s.id, Ingreso, s.total, Str(DescripcionVenta(ms)), s.fecha, None, None)
  }

  /** What every endpoint keeps: the balance is Σ income − Σ expenses of the ledger,
      every product has a name, a positive price and a stock that is not negative, no
      two users share an id, and the payments are numbered "1", "2", … in order. */
  predicate Coherent(saldo: real, ms: seq<Movement>, ps: seq<Product>, us: seq<User>, pagos: seq<Payment>) {
    && Reconciled(saldo, ms)
    && (forall i | 0 <= i < |ps| :: Sellable(ps[i]))
    && UniqueIds(us)
    && CountedIds(pagos)
  }

  /** A sale credits the ledger and lowers stock, and keeps the store coherent. */
  lemma {:induction false} SaleKeepsCoherent(saldo: real, ms: seq<Movement>, ps: seq<Product>, us: seq<User>,
                          pagos: seq<Payment>, m: Movement, lines: seq<LineItem>)
    requires Coherent(saldo, ms, ps, us, pagos) && m.tipo == Ingreso
    ensures Coherent(saldo + m.monto, ms + [m], ApplyStock(ps, lines), us, pagos)
  {
    AppendKeepsReconciled(saldo, ms, m);
    ApplyStockKeepsSellable(ps, lines);
  }

  /** Replacing the products by sellable ones keeps the store coherent. */
  lemma {:induction false} ProductsKeepCoherent(saldo: real, ms: seq<Movement>, ps: seq<Product>, us: seq<User>,
                             pagos: seq<Payment>, qs: seq<Product>)
    requires Coherent(saldo, ms, ps, us, pagos)
    requires forall q | q in qs :: q in ps || Sellable(q)
    ensures Coherent(saldo, ms, qs, us, pagos)
  {
    forall i | 0 <= i < |qs| ensures Sellable(qs[i]) {
      if qs[i] in ps {
        var j :| 0 <= j < |ps| && ps[j] == qs[i];
      }
    }
  }

  /** Appending a registered user keeps the store coherent. */
  lemma RegistrationKeepsCoherent(saldo: real, ms: seq<Movement>, ps: seq<Product>, us: seq<User>,
                                  pagos: seq<Payment>, d: UsuarioDatos)
    requires Coherent(saldo, ms, ps, us, pagos) && Usuarios.RegistrarUsuario(us, d).Ok?
    ensures Coherent(saldo, ms, ps, us + [Usuarios.RegistrarUsuario(us, d).value], pagos)
  {
    RegistrationKeepsUnique(us, d);
  }

  /** A payment and its mirroring expense keep the store coherent. */
  lemma {:induction false} PaymentKeepsCoherent(saldo: real, ms: seq<Movement>, ps: seq<Product>, us: seq<User>,
                             pagos: seq<Payment>, p: Payment)
    requires Coherent(saldo, ms, ps, us, pagos) && p.id == NatToString(|pagos| + 1)
    ensures Coherent(saldo - p.monto, ms + [EgresoDePago(p)], ps, us, pagos + [p])
  {
    AppendKeepsReconciled(saldo, ms, EgresoDePago(p));
    AppendCounted(pagos, p);
  }

  /** An accepted edit of one product keeps the store coherent. */
  lemma {:induction false} EditKeepsCoherent(saldo: real, ms: seq<Movement>, ps: seq<Product>, us: seq<User>,
                          pagos: seq<Payment>, i: nat, d: ProductoDatos)
    requires Coherent(saldo, ms, ps, us, pagos) && i < |ps| && ValidarEdicion(d).None?
    ensures Coherent(saldo, ms, ps[i := Editado(ps[i], d)], us, pagos)
  {
    EditKeepsSellable(ps[i], d);
  }

  /** Updating one user keeps the store coherent. */
  lemma {:induction false} UserUpdateKeepsCoherent(saldo: real, ms: seq<Movement>, ps: seq<Product>, us: seq<User>,
                                pagos: seq<Payment>, i: nat, d: UsuarioDatos)
    requires Coherent(saldo, ms, ps, us, pagos) && i < |us|
    ensures Coherent(saldo, ms, ps, us[i := Actualizado(us[i], d)], pagos)
  {
    UpdateKeepsUniqueIds(us, i, d);
  }

  class Store {
    var productos: seq<Product>
    var ventas: seq<Sale>
    var saldo: real
    var movimientos: seq<Movement>
    var pagos: seq<Payment>
    var facturas: seq<Invoice>
    var usuarios: seq<User>

    /** The store's fields are coherent. */
    predicate Consistent()
      reads this
    {
      Coherent(saldo, movimientos, productos, usuarios, pagos)
    }

    /** Every file missing: no records, a balance of 0. */
    constructor ()
      ensures productos == [] && ventas == [] && movimientos == [] && pagos == []
              && facturas == [] && usuarios == [] && saldo == 0.0
      ensures Consistent()
    {
      productos, ventas, movimientos, pagos, facturas, usuarios := [], [], [], [], [], [];
      saldo := 0.0;
    }

    // ---------- caja ----------

    /** `registrar_ingreso`: a positive amount is added to the balance and recorded as an
        income movement described "Venta #<descripcion>". */
    method RegistrarIngreso(req: IngresoRequest, id: string, now: DateTime) returns (a: Answer)
      modifies this`saldo, this`movimientos
      ensures ValidateIngreso(req).Err? ==> a == Failed(400, ValidateIngreso(req).error) && unchanged(this)
      ensures ValidateIngreso(req).Ok? ==>
                var monto := ValidateIngreso(req).value;
                && a == Done(201, IngresoRegistrado)
                && saldo == old(saldo) + monto
                && movimientos == old(movimientos) + [IngresoMovement(id, monto, req.descripcion.value, now)]
      ensures old(Consistent()) ==> Consistent()
    {
      match ValidateIngreso(req)
      case Err(e) =>
        return Failed(400, e);
      case Ok(monto) =>
        var m := IngresoMovement(id, monto, req.descripcion.value, now);
        if Consistent() {
          AppendKeepsReconciled(saldo, movimientos, m);
        }
        saldo := saldo + monto;
        movimientos := movimientos + [m];
        return Done(201, IngresoRegistrado);
    }

    /** `registrar_egreso`: a positive amount is taken from the balance (which may go below
        zero) and recorded as an expense movement with the details the body carries. */
    method RegistrarEgreso(req: EgresoRequest, id: string, now: DateTime) returns (a: Answer)
      modifies this`saldo, this`movimientos
      ensures ValidateEgreso(req).Err? ==> a == Failed(400, ValidateEgreso(req).error) && unchanged(this)
      ensures ValidateEgreso(req).Ok? ==>
                var monto := ValidateEgreso(req).value;
                && a == Done(201, EgresoRegistrado)
                && saldo == old(saldo) - monto
                && movimientos == old(movimientos) + [EgresoMovement(id, monto, req, now)]
      ensures old(Consistent()) ==> Consistent()
    {
      match ValidateEgreso(req)
      case Err(e) =>
        return Failed(400, e);
      case Ok(monto) =>
        var m := EgresoMovement(id, monto, req, now);
        if Consistent() {
          AppendKeepsReconciled(saldo, movimientos, m);
        }
        saldo := saldo - monto;
        movimientos := movimientos + [m];
        return Done(201, EgresoRegistrado);
    }

    // ---------- ventas ----------

    /** `registrar_venta`: price the cart against the catalogue, store the sale, credit its
        total to the ledger under the same id, and take the quantities off the stock of the
        products sold (never below zero). */
    method RegistrarVenta(cart: Cart, id: string, now: DateTime) returns (a: Answer)
      modifies this`productos, this`ventas, this`saldo, this`movimientos
      ensures cart.NotAList? ==> a == Failed(400, DatosInvalidos) && unchanged(this)
      ensures cart == Items([]) ==> a == Failed(400, VentaSinItems) && unchanged(this)
      ensures cart.Items? && cart.items != [] && DetailItems(old(productos), cart.items).Missing? ==>
                a == ProductoFaltante(DetailItems(old(productos), cart.items).id) && unchanged(this)
      ensures a.Done? <==> cart.Items? && cart.items != [] && DetailItems(old(productos), cart.items).Priced?
      ensures a.Done? ==>
                var lines := DetailItems(old(productos), cart.items).lines;
                var s := Sale(id, lines, SaleTotal(lines), now);
                && a == Done(201, VentaRegistrada)
                && ventas == old(ventas) + [s]
                && saldo == old(saldo) + s.total
                && movimientos == old(movimientos) + [SaleCredit(old(movimientos), s)]
                && productos == ApplyStock(old(productos), lines)
      ensures old(Consistent()) ==> Consistent()
    {
      if cart.NotAList? {
        return Failed(400, DatosInvalidos);
      }
      if cart.items == [] {
        return Failed(400, VentaSinItems);
      }
      var detail := Detallar(productos, cart.items);
      if detail.Missing? {
        return ProductoFaltante(detail.id);
      }
      var s := Sale(id, detail.lines, SaleTotal(detail.lines), now);
      AsentarVenta(s);
      return Done(201, VentaRegistrada);
    }

    /** The writes of a priced sale: the sale itself, its credit to the ledger, and the
        stock loop over its lines. */
    method AsentarVenta(s: Sale)
      modifies this`productos, this`ventas, this`saldo, this`movimientos
      ensures ventas == old(ventas) + [s]
      ensures saldo == old(saldo) + s.total
      ensures movimientos == old(movimientos) + [SaleCredit(old(movimientos), s)]
      ensures productos == ApplyStock(old(productos), s.items)
      ensures old(Consistent()) ==> Consistent()
    {
      var m := SaleCredit(movimientos, s);
      var ps := DescontarStock(productos, s.items);
      if Consistent() {
        SaleKeepsCoherent(saldo, movimientos, productos, usuarios, pagos, m, s.items);
      }
      ventas := ventas + [s];
      saldo := saldo + m.monto;
      movimientos := movimientos + [m];
      productos := ps;
    }

    /** `actualizar_venta`: both keys must be present; the first sale with the id gets the
        items and the total as sent, and neither the ledger nor the stock is touched. */
    method ActualizarVenta(id: string, c: VentaCambios) returns (a: Answer)
      modifies this`ventas
      ensures c.items.None? || c.total.None? ==> a == Failed(400, DatosInvalidos) && unchanged(this)
      ensures c.items.Some? && c.total.Some? && FindSale(old(ventas), Str(id)).None? ==>
                a == Failed(404, VentaNoEncontrada) && unchanged(this)
      ensures c.items.Some? && c.total.Some? && FindSale(old(ventas), Str(id)).Some? ==>
                var i := FindSale(old(ventas), Str(id)).value;
                && a == Done(200, VentaActualizada)
                && ventas == old(ventas)[i := old(ventas)[i].(items := c.items.value, total := c.total.value)]
      ensures old(Consistent()) ==> Consistent()
    {
      if c.items.None? || c.total.None? {
        return Failed(400, DatosInvalidos);
      }
      var i := 0;
      while i < |ventas|
        invariant 0 <= i <= |ventas| && ventas == old(ventas)
        invariant forall k | 0 <= k < i :: Str(ventas[k].id) != Str(id)
      {
        if ventas[i].id == id {
          ventas := ventas[i := ventas[i].(items := c.items.value, total := c.total.value)];
          return Done(200, VentaActualizada);
        }
        i := i + 1;
      }
      return Failed(404, VentaNoEncontrada);
    }

    /** `eliminar_venta`: drop every sale with the id; the ledger and the stock stay. */
    method EliminarVenta(id: string) returns (a: Answer)
      modifies this`ventas
      ensures Ventas.EliminarVenta(old(ventas), id).Err? ==> a == Failed(404, VentaNoEncontrada) && unchanged(this)
      ensures Ventas.EliminarVenta(old(ventas), id).Ok? ==>
                a == Done(200, VentaEliminada) && ventas == Ventas.EliminarVenta(old(ventas), id).value
      ensures old(Consistent()) ==> Consistent()
    {
      match Ventas.EliminarVenta(ventas, id)
      case Err(e) =>
        return Failed(404, e);
      case Ok(keep) =>
        ventas := keep;
        return Done(200, VentaEliminada);
    }

    // ---------- pagos ----------

    /** `registrar_pago`: store the payment under the next count-based id and mirror it as
        an expense with the same id, taking its amount from the balance. */
    method RegistrarPago(d: PagoDatos, now: DateTime) returns (a: Answer)
      modifies this`pagos, this`saldo, this`movimientos
      ensures Pagos.RegistrarPago(old(pagos), d, now).Err? ==>
                a == Failed(400, Pagos.RegistrarPago(old(pagos), d, now).error) && unchanged(this)
      ensures Pagos.RegistrarPago(old(pagos), d, now).Ok? ==>
                var p := Pagos.RegistrarPago(old(pagos), d, now).value;
                && a == Done(201, PagoRegistrado)
                && pagos == old(pagos) + [p]
                && saldo == old(saldo) - p.monto
                && movimientos == old(movimientos) + [EgresoDePago(p)]
      ensures old(Consistent()) ==> Consistent()
    {
      match Pagos.RegistrarPago(pagos, d, now)
      case Err(e) =>
        return Failed(400, e);
      case Ok(p) =>
        ghost var pagos0, saldo0, movimientos0 := pagos, saldo, movimientos;
        ghost var wasConsistent := Consistent();
        pagos, saldo, movimientos := pagos + [p], saldo - p.monto, movimientos + [EgresoDePago(p)];
        if wasConsistent {
          PaymentKeepsCoherent(saldo0, movimientos0, productos, usuarios, pagos0, p);
        }
        return Done(201, PagoRegistrado);
    }

    // ---------- facturas ----------

    /** `generar_factura`: store an invoice that snapshots the sale, then write its id onto
        the first ledger movement carrying the sale's id. */
    method GenerarFactura(d: FacturaDatos, now: DateTime) returns (a: Answer)
      modifies this`facturas, this`movimientos
      ensures !Provided(d.ventaId) || !Provided(d.cliente) ==> a == Failed(400, FaltanDatos) && unchanged(this)
      ensures Provided(d.ventaId) && Provided(d.cliente) && FindSale(ventas, d.ventaId.value).None? ==>
                a == Failed(404, VentaNoEncontrada) && unchanged(this)
      ensures NuevaFactura(old(facturas), ventas, d, now).Ok? ==>
                var f := NuevaFactura(old(facturas), ventas, d, now).value;
                && a == Done(201, FacturaGenerada)
                && facturas == old(facturas) + [f]
                && movimientos == Vinculado(old(movimientos), f.ventaId, f.id)
      ensures a.Done? <==> Provided(d.ventaId) && Provided(d.cliente) && FindSale(ventas, d.ventaId.value).Some?
      ensures old(Consistent()) ==> Consistent()
    {
      if !Provided(d.ventaId) || !Provided(d.cliente) {
        return Failed(400, FaltanDatos);
      }
      var r := NuevaFactura(facturas, ventas, d, now);
      if FindSale(ventas, d.ventaId.value).None? {
        return Failed(404, VentaNoEncontrada);
      }
      assert r.Ok?;
      var f := r.value;
      var ms := VincularMovimiento(movimientos, f.ventaId, f.id);
      if Consistent() {
        BackLinkKeepsReconciled(saldo, movimientos, f.ventaId, f.id);
      }
      facturas := facturas + [f];
      movimientos := ms;
      return Done(201, FacturaGenerada);
    }

    // ---------- productos ----------

    /** `registrar_producto`: append the product built from the body; the answer also
        carries its id, the id of the product now last in the list. */
    method RegistrarProducto(d: ProductoDatos) returns (a: Answer)
      modifies this`productos
      ensures Productos.RegistrarProducto(old(productos), d).Err? ==>
                a == Failed(400, Productos.RegistrarProducto(old(productos), d).error) && unchanged(this)
      ensures Productos.RegistrarProducto(old(productos), d).Ok? ==>
                a == Done(201, ProductoRegistrado)
                && productos == old(productos) + [Productos.RegistrarProducto(old(productos), d).value]
      ensures old(Consistent()) ==> Consistent()
    {
      match Productos.RegistrarProducto(productos, d)
      case Err(e) =>
        return Failed(400, e);
      case Ok(p) =>
        ghost var before := productos;
        ghost var wasConsistent := Consistent();
        productos := productos + [p];
        if wasConsistent {
          ProductsKeepCoherent(saldo, movimientos, before, usuarios, pagos, productos);
        }
        return Done(201, ProductoRegistrado);
    }

    /** `eliminar_producto`: drop every product with the id. */
    method EliminarProducto(id: int) returns (a: Answer)
      modifies this`productos
      ensures Productos.EliminarProducto(old(productos), id).Err? ==>
                a == Failed(404, ProductoNoEncontrado) && unchanged(this)
      ensures Productos.EliminarProducto(old(productos), id).Ok? ==>
                a == Done(200, ProductoEliminado)
                && productos == Productos.EliminarProducto(old(productos), id).value
      ensures old(Consistent()) ==> Consistent()
    {
      match Productos.EliminarProducto(productos, id)
      case Err(e) =>
        return Failed(404, e);
      case Ok(keep) =>
        if Consistent() {
          ProductsKeepCoherent(saldo, movimientos, productos, usuarios, pagos, keep);
        }
        productos := keep;
        return Done(200, ProductoEliminado);
    }

    /** `editar_producto`: find the product (404), check the fields the body carries (400),
        then patch the product in place. */
    method EditarProducto(id: int, d: ProductoDatos) returns (a: Answer)
      modifies this`productos
      ensures ProductIndex(old(productos), id).None? ==> a == Failed(404, ProductoNoEncontrado) && unchanged(this)
      ensures ProductIndex(old(productos), id).Some? && ValidarEdicion(d).Some? ==>
                a == Failed(400, ValidarEdicion(d).value) && unchanged(this)
      ensures ProductIndex(old(productos), id).Some? && ValidarEdicion(d).None? ==>
                var i := ProductIndex(old(productos), id).value;
                && a == Done(200, ProductoActualizado)
                && productos == old(productos)[i := Editado(old(productos)[i], d)]
      ensures old(Consistent()) ==> Consistent()
    {
      match ProductIndex(productos, id)
      case None =>
        return Failed(404, ProductoNoEncontrado);
      case Some(i) =>
        var e := ValidarEdicion(d);
        if e.Some? {
          return Failed(400, e.value);
        }
        ghost var before := productos;
        ghost var wasConsistent := Consistent();
        productos := productos[i := Editado(productos[i], d)];
        if wasConsistent {
          EditKeepsCoherent(saldo, movimientos, before, usuarios, pagos, i, d);
        }
        return Done(200, ProductoActualizado);
    }

    // ---------- usuarios ----------

    /** `registrar_usuario`: append the new user; the answer also shows it without its
        password. */
    method RegistrarUsuario(d: UsuarioDatos) returns (a: Answer)
      modifies this`usuarios
      ensures Usuarios.RegistrarUsuario(old(usuarios), d).Err? ==>
                a == Failed(400, Usuarios.RegistrarUsuario(old(usuarios), d).error) && unchanged(this)
      ensures Usuarios.RegistrarUsuario(old(usuarios), d).Ok? ==>
                a == Done(201, UsuarioRegistrado)
                && usuarios == old(usuarios) + [Usuarios.RegistrarUsuario(old(usuarios), d).value]
      ensures old(Consistent()) ==> Consistent()
    {
      var r := Usuarios.RegistrarUsuario(usuarios, d);
      if r.Err? {
        return Failed(400, r.error);
      }
      ghost var before := usuarios;
      ghost var wasConsistent := Consistent();
      usuarios := usuarios + [r.value];
      if wasConsistent {
        RegistrationKeepsCoherent(saldo, movimientos, productos, before, pagos, d);
      }
      return Done(201, UsuarioRegistrado);
    }

    /** `actualizar_usuario`: the index loop that patches the first user with the id. */
    method ActualizarUsuario(id: int, d: UsuarioDatos) returns (a: Answer)
      modifies this`usuarios
      ensures UserIndex(old(usuarios), id).None? ==> a == Failed(404, UsuarioNoEncontrado) && unchanged(this)
      ensures UserIndex(old(usuarios), id).Some? ==>
                var i := UserIndex(old(usuarios), id).value;
                && a == Done(200, UsuarioActualizado)
                && usuarios == old(usuarios)[i := Actualizado(old(usuarios)[i], d)]
      ensures old(Consistent()) ==> Consistent()
    {
      var i := 0;
      while i < |usuarios|
        invariant 0 <= i <= |usuarios| && usuarios == old(usuarios)
        invariant forall k | 0 <= k < i :: usuarios[k].id != id
      {
        if usuarios[i].id == id {
          assert UserIndex(usuarios, id) == Some(i);
          if Consistent() {
            UserUpdateKeepsCoherent(saldo, movimientos, productos, usuarios, pagos, i, d);
          }
          usuarios := usuarios[i := Actualizado(usuarios[i], d)];
          return Done(200, UsuarioActualizado);
        }
        i := i + 1;
      }
      return Failed(404, UsuarioNoEncontrado);
    }

    /** `eliminar_usuario`: drop every user with the id. */
    method EliminarUsuario(id: int) returns (a: Answer)
      modifies this`usuarios
      ensures Usuarios.EliminarUsuario(old(usuarios), id).Err? ==>
                a == Failed(404, UsuarioNoEncontrado) && unchanged(this)
      ensures Usuarios.EliminarUsuario(old(usuarios), id).Ok? ==>
                a == Done(200, UsuarioEliminado)
                && usuarios == Usuarios.EliminarUsuario(old(usuarios), id).value
      ensures old(Consistent()) ==> Consistent()
    {
      match Usuarios.EliminarUsuario(usuarios, id)
      case Err(e) =>
        return Failed(404, e);
      case Ok(keep) =>
        if Consistent() {
          DeleteKeepsUnique(usuarios, id);
        }
        usuarios := keep;
        return Done(200, UsuarioEliminado);
    }
  }

  /** A new store that records an income of 100 and then an expense of 150: the balance
      goes below zero to -50, the ledger holds both movements in order, and the movement
      query lists the later expense first. */
  method IncomeThenExpense(t1: DateTime, t2: DateTime) returns (s: Store)
    requires Earlier(t1, t2)
    ensures s.saldo == -50.0
    ensures |s.movimientos| == 2 && s.movimientos[0].tipo == Ingreso && s.movimientos[1].tipo == Egreso
    ensures ObtenerCaja(s.saldo, s.movimientos, None, None, None).movimientos == [s.movimientos[1], s.movimientos[0]]
  {
    var ingreso := IngresoRequest(Some(Num(100.0)), Some(Str("1")));
    var egreso := EgresoRequest(Some(Num(150.0)), Some(Str("proveedor")), None, None, None);
    assert ToFloat(Num(100.0)) == Some(100.0) && ValidateIngreso(ingreso) == Ok(100.0);
    assert ToFloat(Num(150.0)) == Some(150.0) && ValidateEgreso(egreso) == Ok(150.0);
    s := new Store();
    var a := s.RegistrarIngreso(ingreso, "m1", t1);
    var m1 := IngresoMovement("m1", 100.0, Str("1"), t1);
    assert s.saldo == 100.0 && s.movimientos == [m1];
    var b := s.RegistrarEgreso(egreso, "m2", t2);
    var m2 := EgresoMovement("m2", 150.0, egreso, t2);
    assert s.saldo == -50.0 && s.movimientos == [m1, m2];
    LaterFirst(s.saldo, m1, m2);
  }

  /** The movement query over two movements lists the later one first. */
  lemma LaterFirst(saldo: real, m1: Movement, m2: Movement)
    requires Earlier(m1.fecha, m2.fecha)
    ensures ObtenerCaja(saldo, [m1, m2], None, None, None).movimientos == [m2, m1]
  {
    SortPair(m1, m2);
    assert PagingArgs(None, None) == (1, 10);
    assert FilterTipo([m2, m1], None) == [m2, m1];
    assert Page([m2, m1], 1, 10) == [m2, m1];
  }

  /** Sorting two movements puts the later one first. */
  lemma SortPair(m1: Movement, m2: Movement)
    requires Earlier(m1.fecha, m2.fecha)
    ensures SortNewestFirst([m1, m2]) == [m2, m1]
  {
    assert [m1, m2][1..] == [m2] && [m2][1..] == [];
    assert SortNewestFirst([m2]) == Insert(m2, []) == [m2];
    assert Insert(m1, []) == [m1];
    assert Insert(m1, [m2]) == [m2] + [m1];
  }
}

/** Sales: pricing a cart against the catalogue (`items_detallados`), the sale total, the
    description of the ledger credit, the stock decrement with its floor at zero, and the
    update and delete of stored sales. The store applies them in `Tienda.Store`. */
module Ventas {
  import opened Common
  import opened Calendar
  import opened Caja
  import opened Productos

  /** One entry of the `items` list of a sale request. */
  datatype CartItem = CartItem(id: Value, cantidad: int)

  /** The `items` field: something other than a list, or a list of items. */
  datatype Cart = NotAList | Items(items: seq<CartItem>)

  /** A priced line of a stored sale. */
  datatype LineItem = LineItem(id: Value, nombre: string, cantidad: int, precioUnitario: real)

  /** One entry of `ventas.json`. */
  datatype Sale = Sale(id: string, items: seq<LineItem>, total: real, fecha: DateTime)

  const VentaSinItems := "No se puede registrar una venta sin items"
  const VentaNoEncontrada := "Venta no encontrada"

  // ---------- Pricing ----------

  /** `str(p["id"]) == str(item["id"])` for an integer product id: an integer item id
      matches its own value (decimal renderings of integers are equal exactly when the
      integers are) and a string matches the decimal rendering; a bool, a float,
      null or a container never renders as an integer. */
  predicate IdMatches(pid: int, v: Value) {
    match v
    case Int(i) => i == pid
    case Str(s) => s == IntToString(pid)
    case _ => false
  }

  /** The integer case of `IdMatches` is the string comparison the source makes. */
  lemma IdMatchesIsStrEquality(pid: int, v: Value)
    ensures IdMatches(pid, v) <==> (v.Int? || v.Str?) && Render(v) == IntToString(pid)
  {
    if v.Int? {
      IntToStringInjective(v.i, pid);
    }
  }

  /** `str(v)` for the two kinds of ids that can name a product. */
  function Render(v: Value): string
    requires v.Int? || v.Str?
  {
    if v.Int? then IntToString(v.i) else v.s
  }

  /** The product `next(...)` picks for an item id: the first one whose id matches. */
  function FindProduct(ps: seq<Product>, v: Value): (r: Option<nat>)
    ensures r.None? <==> forall j | 0 <= j < |ps| :: !IdMatches(ps[j].id, v)
    ensures r.Some? ==> r.value < |ps| && IdMatches(ps[r.value].id, v)
    ensures r.Some? ==> forall j | 0 <= j < r.value :: !IdMatches(ps[j].id, v)
  {
    FirstIndex(ps, (p: Product) => IdMatches(p.id, v))
  }

  /** The priced line of an item, from the product it matches: the name and the unit
      price come from the catalogue, the id and the quantity from the request. */
  function Line(ps: seq<Product>, item: CartItem): (l: LineItem)
    requires Known(ps, item)
  {
    var p := ps[FindProduct(ps, item.id).value];
    LineItem(item.id, p.nombre, item.cantidad, p.precio)
  }

  /** The outcome of pricing a cart: every line, or the id of the first item no product
      matches (answered with 404 "Producto con id <id> no encontrado"). */
  datatype Detail = Priced(lines: seq<LineItem>) | Missing(id: Value)

  predicate Known(ps: seq<Product>, item: CartItem) {
    FindProduct(ps, item.id).Some?
  }

  /** `items_detallados`, or the first unknown item. */
  function DetailItems(ps: seq<Product>, items: seq<CartItem>): (r: Detail)
    ensures r.Priced? <==> forall k | 0 <= k < |items| :: Known(ps, items[k])
    ensures r.Priced? ==> |r.lines| == |items|
                          && forall k | 0 <= k < |items| :: r.lines[k] == Line(ps, items[k])
    ensures r.Missing? ==> exists k | 0 <= k < |items| ::
              && !Known(ps, items[k]) && r.id == items[k].id
              && forall k' | 0 <= k' < k :: Known(ps, items[k'])
  {
    if items == [] then Priced([])
    else if !Known(ps, items[0]) then Missing(items[0].id)
    else match DetailItems(ps, items[1..])
      case Missing(v) =>
        assert forall k | 1 <= k < |items| :: items[k] == items[1..][k - 1];
        Missing(v)
      case Priced(rest) =>
        assert forall k | 1 <= k < |items| :: items[k] == items[1..][k - 1];
        Priced([Line(ps, items[0])] + rest)
  }

  /** The loop that builds `items_detallados`, leaving at the first unknown item. */
  method Detallar(ps: seq<Product>, items: seq<CartItem>) returns (r: Detail)
    ensures r == DetailItems(ps, items)
  {
    var lines: seq<LineItem> := [];
    var k := 0;
    while k < |items|
      invariant 0 <= k <= |items|
      invariant forall j | 0 <= j < k :: Known(ps, items[j])
      invariant |lines| == k && forall j | 0 <= j < k :: lines[j] == Line(ps, items[j])
    {
      if !Known(ps, items[k]) {
        DetailFirstMissing(ps, items, k);
        return Missing(items[k].id);
      }
      var next := lines + [Line(ps, items[k])];
      assert forall j | 0 <= j < k + 1 :: next[j] == Line(ps, items[j]);
      lines, k := next, k + 1;
    }
    DetailAllKnown(ps, items, lines);
    return Priced(lines);
  }

  lemma DetailAllKnown(ps: seq<Product>, items: seq<CartItem>, lines: seq<LineItem>)
    requires forall j | 0 <= j < |items| :: Known(ps, items[j])
    requires |lines| == |items| && forall j | 0 <= j < |items| :: lines[j] == Line(ps, items[j])
    ensures DetailItems(ps, items) == Priced(lines)
  {
  }

  lemma {:induction false} DetailFirstMissing(ps: seq<Product>, items: seq<CartItem>, k: nat)
    requires k < |items| && !Known(ps, items[k])
    requires forall j | 0 <= j < k :: Known(ps, items[j])
    ensures DetailItems(ps, items) == Missing(items[k].id)
    decreases k
  {
    if k > 0 {
      DetailFirstMissing(ps, items[1..], k - 1);
    }
  }

  /** `sum(i["cantidad"] * i["precio_unitario"] for i in items_detallados)`. */
  function SaleTotal(lines: seq<LineItem>): real {
    if lines == [] then 0.0
    else SaleTotal(lines[..|lines| - 1]) + Amount(lines[|lines| - 1].cantidad, lines[|lines| - 1].precioUnitario)
  }

  /** Quantity × unit price. */
  function Amount(cantidad: int, precio: real): real {
    cantidad as real * precio
  }

  /** The total of a priced cart is Σ quantity × catalogue price over the cart: the price
      the client might send plays no part. */
  lemma TotalUsesCatalogPrices(ps: seq<Product>, items: seq<CartItem>)
    requires DetailItems(ps, items).Priced?
    ensures SaleTotal(DetailItems(ps, items).lines) == CartValue(ps, items)
  {
    LinesTotal(ps, items, DetailItems(ps, items).lines);
  }

  lemma {:induction false} LinesTotal(ps: seq<Product>, items: seq<CartItem>, lines: seq<LineItem>)
    requires forall k | 0 <= k < |items| :: Known(ps, items[k])
    requires |lines| == |items| && forall k | 0 <= k < |items| :: lines[k] == Line(ps, items[k])
    ensures SaleTotal(lines) == CartValue(ps, items)
  {
    if items != [] {
      var n := |items| - 1;
      var pre := items[..n];
      var lp := lines[..n];
      assert SaleTotal(lp) == CartValue(ps, pre) by {
        assert forall k | 0 <= k < n :: pre[k] == items[k] && lp[k] == lines[k];
        LinesTotal(ps, pre, lp);
      }
      LastLine(ps, items[n], lines[n]);
    }
  }

  lemma LastLine(ps: seq<Product>, item: CartItem, l: LineItem)
    requires Known(ps, item) && l == Line(ps, item)
    ensures Amount(l.cantidad, l.precioUnitario) == Amount(item.cantidad, ps[FindProduct(ps, item.id).value].precio)
  {
  }

  /** Σ quantity × price of the matched product, straight from the cart and catalogue. */
  function CartValue(ps: seq<Product>, items: seq<CartItem>): real
    requires forall k | 0 <= k < |items| :: Known(ps, items[k])
  {
    if items == [] then 0.0
    else
      var last := items[|items| - 1];
      assert Known(ps, last);
      CartValue(ps, items[..|items| - 1])
        + Amount(last.cantidad, ps[FindProduct(ps, last.id).value].precio)
  }

  /** The description of the ledger credit: "Venta #" and one more than the number of
      income movements already in the ledger. */
  function DescripcionVenta(ms: seq<Movement>): string {
    "Venta #" + NatToString(|OfKind(ms, Ingreso)| + 1)
  }

  /** Consecutive sales recorded on a ledger number their credits 1, 2, 3, … as long as
      nothing else adds income: the count of income movements grows by one per sale. */
  lemma SaleNumbersAdvance(ms: seq<Movement>, m: Movement)
    requires m.tipo == Ingreso
    ensures |OfKind(ms + [m], Ingreso)| == |OfKind(ms, Ingreso)| + 1
  {
    FilterAppend(ms, [m], (x: Movement) => x.tipo == Ingreso);
  }

  // ---------- Stock ----------

  /** `prod["stock"] = max(0, prod["stock"] - item["cantidad"])` for the product the line
      matches first. */
  function ApplyLine(ps: seq<Product>, l: LineItem): (r: seq<Product>)
    ensures |r| == |ps|
  {
    match FindProduct(ps, l.id)
    case None => ps
    case Some(j) => ps[j := ps[j].(stock := Floor0(ps[j].stock - l.cantidad))]
  }

  function Floor0(x: int): (r: int)
    ensures r >= 0 && r >= x && (x >= 0 ==> r == x)
  {
    if x < 0 then 0 else x
  }

  /** The stock loop over the priced lines, in order. */
  function ApplyStock(ps: seq<Product>, lines: seq<LineItem>): (r: seq<Product>)
    ensures |r| == |ps|
  {
    if lines == [] then ps
    else ApplyLine(ApplyStock(ps, lines[..|lines| - 1]), lines[|lines| - 1])
  }

  /** The stock loop of `registrar_venta`, one line after the other. */
  method DescontarStock(ps: seq<Product>, lines: seq<LineItem>) returns (r: seq<Product>)
    ensures r == ApplyStock(ps, lines)
  {
    r := ps;
    var k := 0;
    while k < |lines|
      invariant 0 <= k <= |lines|
      invariant r == ApplyStock(ps, lines[..k])
    {
      match FindProduct(r, lines[k].id) {
        case None =>
        case Some(j) =>
          r := r[j := r[j].(stock := Floor0(r[j].stock - lines[k].cantidad))];
      }
      assert lines[..k + 1][..k] == lines[..k];
      k := k + 1;
    }
    assert lines[..k] == lines;
  }

  /** Everything but stock, for comparing catalogues before and after a sale. */
  function Catalog(p: Product): (int, string, string, real, string) {
    (p.id, p.nombre, p.descripcion, p.precio, p.categoria)
  }

  /** One line sets the first matching product's stock to `max(0, stock - cantidad)` and
      changes nothing else. */
  lemma ApplyLineEffect(ps: seq<Product>, l: LineItem)
    ensures forall j | 0 <= j < |ps| :: Catalog(ApplyLine(ps, l)[j]) == Catalog(ps[j])
    ensures FindProduct(ps, l.id).Some? ==>
              var j := FindProduct(ps, l.id).value;
              ApplyLine(ps, l)[j].stock == Floor0(ps[j].stock - l.cantidad)
              && forall k | 0 <= k < |ps| && k != j :: ApplyLine(ps, l)[k] == ps[k]
    ensures FindProduct(ps, l.id).None? ==> ApplyLine(ps, l) == ps
  {
  }

  /** After the stock loop no stock is negative, and the catalogue fields of every
      product are as before. */
  lemma {:induction false} ApplyStockKeepsSellable(ps: seq<Product>, lines: seq<LineItem>)
    requires forall j | 0 <= j < |ps| :: Sellable(ps[j])
    ensures forall j | 0 <= j < |ps| :: Sellable(ApplyStock(ps, lines)[j])
    ensures forall j | 0 <= j < |ps| :: Catalog(ApplyStock(ps, lines)[j]) == Catalog(ps[j])
  {
    if lines != [] {
      var pre := ApplyStock(ps, lines[..|lines| - 1]);
      ApplyStockKeepsSellable(ps, lines[..|lines| - 1]);
      ApplyLineEffect(pre, lines[|lines| - 1]);
    }
  }

  /** A product that no line of the sale names keeps its stock. */
  lemma {:induction false} ApplyStockUntouched(ps: seq<Product>, lines: seq<LineItem>, j: nat)
    requires j < |ps|
    requires forall k | 0 <= k < |lines| :: !IdMatches(ps[j].id, lines[k].id)
    ensures ApplyStock(ps, lines)[j] == ps[j]
  {
    if lines != [] {
      var pre := lines[..|lines| - 1];
      ApplyStockUntouched(ps, pre, j);
      ApplyStockKeepsIds(ps, pre);
      ApplyLineEffect(ApplyStock(ps, pre), lines[|lines| - 1]);
    }
  }

  /** The stock loop keeps every id, so later lines find the same products. */
  lemma {:induction false} ApplyStockKeepsIds(ps: seq<Product>, lines: seq<LineItem>)
    ensures forall j | 0 <= j < |ps| :: ApplyStock(ps, lines)[j].id == ps[j].id
  {
    if lines != [] {
      ApplyStockKeepsIds(ps, lines[..|lines| - 1]);
      ApplyLineEffect(ApplyStock(ps, lines[..|lines| - 1]), lines[|lines| - 1]);
    }
  }

  // ---------- actualizar_venta / eliminar_venta ----------

  /** The body of `actualizar_venta`: the new items and total, taken as sent. */
  datatype VentaCambios = VentaCambios(items: Option<seq<LineItem>>, total: Option<real>)

  /** `eliminar_venta`: every sale with the id goes; "not found" exactly when none has it.
      The ledger and the stock are not touched. */
  function EliminarVenta(vs: seq<Sale>, id: string): (r: Result<seq<Sale>>)
    ensures r.Err? <==> forall i | 0 <= i < |vs| :: vs[i].id != id
    ensures r.Err? ==> r.error == VentaNoEncontrada
    ensures r.Ok? ==> |r.value| < |vs|
    ensures r.Ok? ==> forall v :: v in r.value <==> v in vs && v.id != id
    ensures r.Ok? ==> r.value == Filter(vs, (v: Sale) => v.id != id)
  {
    var keep := Filter(vs, (v: Sale) => v.id != id);
    FilterSubset(vs, (v: Sale) => v.id != id);
    FilterComplete(vs, (v: Sale) => v.id != id);
    if |keep| == |vs| then Err(VentaNoEncontrada) else Ok(keep)
  }
}

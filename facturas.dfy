/** Invoices: the monthly sequential invoice number of `generar_id_factura`, the snapshot
    of a sale an invoice keeps, and the back-link `generar_factura` writes onto the ledger
    movement of that sale. The store applies them in `Tienda.Store`. */
module Facturas {
  import opened Common
  import opened Calendar
  import opened Caja
  import opened Ventas

  /** One entry of `facturas.json`. `precioUnitario` is `venta.get("precio_unitario", 0)`:
      stored sales have no such key, so it is always 0. */
  datatype Invoice = Invoice(
    id: string,
    fecha: DateTime,
    cliente: Value,
    ventaId: string,
    precioUnitario: real,
    items: seq<LineItem>,
    total: real)

  const FaltanDatos := "Faltan datos requeridos (venta_id o cliente)"

  // ---------- generar_id_factura ----------

  /** "FAC-" and the year-month, the prefix every invoice of that month starts with. */
  function MonthPrefix(ym: string): string {
    "FAC-" + ym
  }

  /** `correlativos`: the invoices whose id starts with the prefix of the month. */
  function Correlativos(fs: seq<Invoice>, ym: string): seq<Invoice> {
    Filter(fs, (f: Invoice) => StartsWith(f.id, MonthPrefix(ym)))
  }

  /** The n-th invoice number of a month: the prefix, "-", and `str(n).zfill(3)`: n in
      exactly three digits, or in as many as it needs when it has more. */
  function InvoiceNumber(ym: string, n: nat): (id: string)
    ensures StartsWith(id, MonthPrefix(ym) + "-")
    ensures |id| == |ym| + 5 + (if |NatToString(n)| >= 3 then |NatToString(n)| else 3)
    ensures AllDigits(id[|ym| + 5..]) && DigitsValue(id[|ym| + 5..]) == n
  {
    ZFillValue(n, 3);
    var id := MonthPrefix(ym) + "-" + ZFill(NatToString(n), 3);
    assert id[|ym| + 5..] == ZFill(NatToString(n), 3);
    id
  }

  /** Different positions in a month give different invoice numbers. */
  lemma InvoiceNumberInjective(ym: string, a: nat, b: nat)
    ensures InvoiceNumber(ym, a) == InvoiceNumber(ym, b) <==> a == b
  {
  }

  /** `generar_id_factura`: the number one past the invoices the month already has. */
  function GenerarIdFactura(fs: seq<Invoice>, now: DateTime): (id: string)
    ensures StartsWith(id, MonthPrefix(MonthKey(now.date)) + "-")
    ensures var digits := id[|MonthKey(now.date)| + 5..];
            var n := |Correlativos(fs, MonthKey(now.date))| + 1;
            && |digits| == (if |NatToString(n)| >= 3 then |NatToString(n)| else 3)
            && AllDigits(digits) && DigitsValue(digits) == n
  {
    InvoiceNumber(MonthKey(now.date), |Correlativos(fs, MonthKey(now.date))| + 1)
  }

  /** The invoices of month `ym` carry the numbers 1, 2, … in list order: what a list
      built by `generar_factura` alone looks like. */
  predicate Numbered(fs: seq<Invoice>, ym: string) {
    NumberedBy(Correlativos(fs, ym), Numbering(ym))
  }

  /** The numbers of month `ym`, by position. */
  function Numbering(ym: string): nat -> string {
    (n: nat) => InvoiceNumber(ym, n)
  }

  /** Entry `i` of `c` carries number `i + 1`. */
  predicate NumberedBy(c: seq<Invoice>, number: nat -> string) {
    forall i | 0 <= i < |c| :: c[i].id == number(i + 1)
  }

  /** In a numbered month, the next number is not yet taken by any invoice. */
  lemma {:induction false} NextNumberFresh(fs: seq<Invoice>, ym: string)
    requires Numbered(fs, ym)
    ensures forall g | g in fs :: g.id != InvoiceNumber(ym, |Correlativos(fs, ym)| + 1)
  {
    var c := Correlativos(fs, ym);
    var p := (g: Invoice) => StartsWith(g.id, MonthPrefix(ym));
    var next := InvoiceNumber(ym, |c| + 1);
    InvoiceNumberInMonth(ym, |c| + 1);
    FilterComplete(fs, p);
    forall g | g in fs ensures g.id != next {
      if p(g) {
        assert g in c;
        var i :| 0 <= i < |c| && c[i] == g;
        assert g.id == Numbering(ym)(i + 1) == InvoiceNumber(ym, i + 1);
        InvoiceNumberInjective(ym, i + 1, |c| + 1);
      }
    }
  }

  /** Every number of a month starts with the month's prefix. */
  lemma InvoiceNumberInMonth(ym: string, n: nat)
    ensures StartsWith(InvoiceNumber(ym, n), MonthPrefix(ym))
  {
    var id, pre := InvoiceNumber(ym, n), MonthPrefix(ym);
    assert id[..|pre|] == (pre + "-")[..|pre|] == pre;
  }

  /** An invoice of the month joins the end of the month's invoices. */
  lemma {:induction false} CorrelativosAppend(fs: seq<Invoice>, ym: string, f: Invoice)
    requires StartsWith(f.id, MonthPrefix(ym))
    ensures Correlativos(fs + [f], ym) == Correlativos(fs, ym) + [f]
  {
    var p := (g: Invoice) => StartsWith(g.id, MonthPrefix(ym));
    FilterAppend(fs, [f], p);
    assert Filter([f], p) == [f] by {
      assert p(f);
      assert [f][1..] == [];
    }
  }

  /** Appending the next number of a month extends the month's invoices by that one and
      keeps them numbered. */
  lemma {:induction false} NextNumberAppended(fs: seq<Invoice>, ym: string, f: Invoice)
    requires Numbered(fs, ym)
    requires f.id == InvoiceNumber(ym, |Correlativos(fs, ym)| + 1)
    ensures Correlativos(fs + [f], ym) == Correlativos(fs, ym) + [f]
    ensures Numbered(fs + [f], ym)
  {
    InvoiceNumberInMonth(ym, |Correlativos(fs, ym)| + 1);
    CorrelativosAppend(fs, ym, f);
    AppendKeepsNumbering(Correlativos(fs, ym), f, Numbering(ym));
  }

  /** Appending the entry whose number is one past the last keeps a list numbered. */
  lemma {:induction false} AppendKeepsNumbering(c: seq<Invoice>, f: Invoice, number: nat -> string)
    requires NumberedBy(c, number) && f.id == number(|c| + 1)
    ensures NumberedBy(c + [f], number)
  {
    forall i | 0 <= i < |c + [f]| ensures (c + [f])[i].id == number(i + 1) {
      if i < |c| {
        assert (c + [f])[i] == c[i];
      } else {
        assert (c + [f])[i] == f;
      }
    }
  }

  /** While invoices are only issued by `generar_id_factura`, the new id is the next
      number of its month, differs from every id already issued, and the month stays
      numbered. */
  lemma IssuedIdIsNext(fs: seq<Invoice>, now: DateTime, f: Invoice)
    requires Numbered(fs, MonthKey(now.date))
    requires f.id == GenerarIdFactura(fs, now)
    ensures f.id == InvoiceNumber(MonthKey(now.date), |Correlativos(fs, MonthKey(now.date))| + 1)
    ensures forall g | g in fs :: g.id != f.id
    ensures Numbered(fs + [f], MonthKey(now.date))
  {
    NextNumberFresh(fs, MonthKey(now.date));
    NextNumberAppended(fs, MonthKey(now.date), f);
  }

  /** Issuing an invoice leaves the numbering of every other month as it was (months are
      written with the same number of characters). */
  lemma {:induction false} IssueKeepsOtherMonths(fs: seq<Invoice>, now: DateTime, f: Invoice, ym: string)
    requires f.id == GenerarIdFactura(fs, now)
    requires |ym| == |MonthKey(now.date)| && ym != MonthKey(now.date)
    ensures Correlativos(fs + [f], ym) == Correlativos(fs, ym)
    ensures Numbered(fs, ym) ==> Numbered(fs + [f], ym)
  {
    var p := (g: Invoice) => StartsWith(g.id, MonthPrefix(ym));
    var own := MonthPrefix(MonthKey(now.date));
    assert f.id[..|own|] == own;
    assert MonthPrefix(ym)[4..] == ym && own[4..] == MonthKey(now.date);
    assert !p(f);
    FilterAppend(fs, [f], p);
    assert Filter([f], p) == [] by {
      assert [f][1..] == [];
    }
  }

  /** Uniqueness rests on that assumption: after one invoice numbered 2 issued by other
      means, the month's next id is that same number again. */
  lemma {:induction false} ForeignNumberRepeats(f: Invoice, now: DateTime)
    requires f.id == InvoiceNumber(MonthKey(now.date), 2)
    ensures GenerarIdFactura([f], now) == f.id
  {
    var ym := MonthKey(now.date);
    InvoiceNumberInMonth(ym, 2);
    CorrelativosAppend([], ym, f);
    assert [] + [f] == [f];
    assert |Correlativos([f], ym)| == 1;
  }

  // ---------- generar_factura ----------

  /** The body of a `generar_factura` request; None when a key is absent. */
  datatype FacturaDatos = FacturaDatos(ventaId: Option<Value>, cliente: Option<Value>)

  /** Present with a truthy value: what `not x` rejects. */
  predicate Provided(v: Option<Value>) {
    v.Some? && Truthy(v.value)
  }

  /** The sale `next(...)` picks: the first whose id equals the requested one. A stored id
      is a string, so only a string can equal it. */
  function FindSale(vs: seq<Sale>, v: Value): (r: Option<nat>)
    ensures r.None? <==> forall j | 0 <= j < |vs| :: Str(vs[j].id) != v
    ensures r.Some? ==> r.value < |vs| && Str(vs[r.value].id) == v
    ensures r.Some? ==> forall j | 0 <= j < r.value :: Str(vs[j].id) != v
  {
    FirstIndex(vs, (s: Sale) => Str(s.id) == v)
  }

  /** `generar_factura` up to the writes: both keys truthy, then the sale, then the
      invoice that copies the sale's id, items and total beside the client. */
  function NuevaFactura(fs: seq<Invoice>, vs: seq<Sale>, d: FacturaDatos, now: DateTime): (r: Result<Invoice>)
    ensures r == Err(FaltanDatos) <==> !Provided(d.ventaId) || !Provided(d.cliente)
    ensures (Provided(d.ventaId) && Provided(d.cliente)
             && forall j | 0 <= j < |vs| :: Str(vs[j].id) != d.ventaId.value)
              ==> r == Err(VentaNoEncontrada)
    ensures r.Ok? ==> && Provided(d.ventaId) && Provided(d.cliente)
                      && FindSale(vs, d.ventaId.value).Some?
    ensures Provided(d.ventaId) && Provided(d.cliente) && FindSale(vs, d.ventaId.value).Some? ==> r.Ok?
    ensures r.Ok? ==> var s := vs[FindSale(vs, d.ventaId.value).value];
                      && Str(r.value.ventaId) == d.ventaId.value && r.value.ventaId == s.id
                      && r.value.items == s.items && r.value.total == s.total
                      && r.value.cliente == d.cliente.value && r.value.precioUnitario == 0.0
    ensures r.Ok? ==> r.value.id == GenerarIdFactura(fs, now) && r.value.fecha == now
  {
    if !Provided(d.ventaId) || !Provided(d.cliente) then Err(FaltanDatos)
    else match FindSale(vs, d.ventaId.value)
      case None => Err(VentaNoEncontrada)
      case Some(i) =>
        var s := vs[i];
        Ok(Invoice(GenerarIdFactura(fs, now), now, d.cliente.value, s.id, 0.0, s.items, s.total))
  }

  /** There is no guard against invoicing a sale twice: a second request for the same
      sale in the same month, whatever invoices the list held, is accepted and gets the
      next number. */
  lemma SaleInvoicedTwice(fs: seq<Invoice>, vs: seq<Sale>, d: FacturaDatos, now: DateTime, later: DateTime)
    requires MonthKey(later.date) == MonthKey(now.date)
    requires NuevaFactura(fs, vs, d, now).Ok?
    ensures var first := NuevaFactura(fs, vs, d, now).value;
            var second := NuevaFactura(fs + [first], vs, d, later);
            && second.Ok? && second.value.ventaId == first.ventaId
            && second.value.id != first.id
  {
    var ym := MonthKey(now.date);
    var first := NuevaFactura(fs, vs, d, now).value;
    var c := Correlativos(fs, ym);
    InvoiceNumberInMonth(ym, |c| + 1);
    CorrelativosAppend(fs, ym, first);
    InvoiceNumberInjective(ym, |c| + 1, |c| + 2);
  }

  // ---------- The back-link on the ledger ----------

  /** The first movement with the given id, if any. */
  function FirstMovement(ms: seq<Movement>, id: string): (r: Option<nat>)
    ensures r.None? <==> forall j | 0 <= j < |ms| :: ms[j].id != id
    ensures r.Some? ==> r.value < |ms| && ms[r.value].id == id
    ensures r.Some? ==> forall j | 0 <= j < r.value :: ms[j].id != id
  {
    FirstIndex(ms, (m: Movement) => m.id == id)
  }

  /** The ledger after the back-link: the first movement whose id is the sale's carries the
      invoice id; without one the ledger is as it was. */
  function Vinculado(ms: seq<Movement>, ventaId: string, fid: string): seq<Movement> {
    match FirstMovement(ms, ventaId)
    case None => ms
    case Some(i) => ms[i := ms[i].(facturaId := Some(fid))]
  }

  /** What the back-link changes: the invoice id of the first movement of the sale and
      nothing else; with no such movement, nothing at all. */
  lemma BackLinkChangesOnlyFirst(ms: seq<Movement>, ventaId: string, fid: string)
    ensures |Vinculado(ms, ventaId, fid)| == |ms|
    ensures forall j | 0 <= j < |ms| ::
              Vinculado(ms, ventaId, fid)[j].(facturaId := ms[j].facturaId) == ms[j]
    ensures forall j | 0 <= j < |ms| && Vinculado(ms, ventaId, fid)[j] != ms[j] ::
              ms[j].id == ventaId && forall k | 0 <= k < j :: ms[k].id != ventaId
    ensures forall j | 0 <= j < |ms| && ms[j].id == ventaId && (forall k | 0 <= k < j :: ms[k].id != ventaId) ::
              Vinculado(ms, ventaId, fid)[j].facturaId == Some(fid)
    ensures (forall j | 0 <= j < |ms| :: ms[j].id != ventaId) ==> Vinculado(ms, ventaId, fid) == ms
  {
  }

  /** The back-link leaves kinds and amounts alone, so the balance stays reconciled. */
  lemma BackLinkKeepsReconciled(saldo: real, ms: seq<Movement>, ventaId: string, fid: string)
    requires Reconciled(saldo, ms)
    ensures Reconciled(saldo, Vinculado(ms, ventaId, fid))
  {
    var r := Vinculado(ms, ventaId, fid);
    BackLinkChangesOnlyFirst(ms, ventaId, fid);
    forall i | 0 <= i < |ms| ensures ms[i].tipo == r[i].tipo && ms[i].monto == r[i].monto {
      assert r[i].(facturaId := ms[i].facturaId) == ms[i];
    }
    SameAmountsSameSums(ms, r, Ingreso);
    SameAmountsSameSums(ms, r, Egreso);
  }

  /** The for/break loop over the movements that writes the back-link. */
  method VincularMovimiento(ms: seq<Movement>, ventaId: string, fid: string) returns (r: seq<Movement>)
    ensures r == Vinculado(ms, ventaId, fid)
  {
    var i := 0;
    while i < |ms|
      invariant 0 <= i <= |ms|
      invariant forall k | 0 <= k < i :: ms[k].id != ventaId
    {
      if ms[i].id == ventaId {
        return ms[i := ms[i].(facturaId := Some(fid))];
      }
      i := i + 1;
    }
    return ms;
  }
}

/** The metrics endpoint (`obtener_metricas`): totals over the sales and the expense
    movements, the per-day, per-week, per-month and per-year buckets, the quantity sold
    per product name and the best seller. */
module Metricas {
  import opened Common
  import opened Calendar
  import opened Caja
  import opened Ventas

  // ---------- Insertion-ordered counters ----------

  /** One `d[key] += step`: the key, an integer step and an amount step. */
  datatype Entry = Entry(key: string, n: int, x: real)

  /** One key of a `defaultdict` with what has been added under it. */
  datatype Bucket = Bucket(key: string, cuenta: int, suma: real)

  /** A `defaultdict` as a list of buckets in insertion order. */
  type Tally = seq<Bucket>

  predicate DistinctKeys(t: Tally) {
    forall i, j | 0 <= i < j < |t| :: t[i].key != t[j].key
  }

  /** The position of the bucket of `k`, if the counter has one. */
  function IndexOf(t: Tally, k: string): (r: Option<nat>)
    ensures r.None? <==> forall j | 0 <= j < |t| :: t[j].key != k
    ensures r.Some? ==> r.value < |t| && t[r.value].key == k
    ensures r.Some? ==> forall j | 0 <= j < r.value :: t[j].key != k
  {
    if t == [] then None
    else if t[0].key == k then Some(0)
    else match IndexOf(t[1..], k)
      case None => None
      case Some(i) => Some(i + 1)
  }

  /** `d[e.key] += step`: the bucket of the key grows, or a new bucket is appended. */
  function Add(t: Tally, e: Entry): Tally {
    match IndexOf(t, e.key)
    case Some(i) => t[i := Bucket(e.key, t[i].cuenta + e.n, t[i].suma + e.x)]
    case None => t + [Bucket(e.key, e.n, e.x)]
  }

  /** The counter `t` after the steps `es`, in order. */
  function AddAll(t: Tally, es: seq<Entry>): Tally {
    if es == [] then t else Add(AddAll(t, es[..|es| - 1]), es[|es| - 1])
  }

  /** A fresh `defaultdict` after the steps `es`. */
  function Tallied(es: seq<Entry>): Tally {
    AddAll([], es)
  }

  /** Σ of the integer steps with key `k`. */
  function CountOf(es: seq<Entry>, k: string): int {
    if es == [] then 0
    else CountOf(es[..|es| - 1], k) + (if es[|es| - 1].key == k then es[|es| - 1].n else 0)
  }

  /** Σ of the amount steps with key `k`. */
  function AmountOf(es: seq<Entry>, k: string): real {
    if es == [] then 0.0
    else AmountOf(es[..|es| - 1], k) + (if es[|es| - 1].key == k then es[|es| - 1].x else 0.0)
  }

  /** Σ of all integer steps. */
  function SumN(es: seq<Entry>): int {
    if es == [] then 0 else SumN(es[..|es| - 1]) + es[|es| - 1].n
  }

  /** Σ of all amount steps. */
  function SumX(es: seq<Entry>): real {
    if es == [] then 0.0 else SumX(es[..|es| - 1]) + es[|es| - 1].x
  }

  /** Σ of the counts of all buckets. */
  function TallyCount(t: Tally): int {
    if t == [] then 0 else TallyCount(t[..|t| - 1]) + t[|t| - 1].cuenta
  }

  /** Σ of the amounts of all buckets. */
  function TallySum(t: Tally): real {
    if t == [] then 0.0 else TallySum(t[..|t| - 1]) + t[|t| - 1].suma
  }

  lemma SumNAppend(a: seq<Entry>, b: seq<Entry>)
    ensures SumN(a + b) == SumN(a) + SumN(b)
  {
    if b != [] {
      assert (a + b)[..|a + b| - 1] == a + b[..|b| - 1];
      SumNAppend(a, b[..|b| - 1]);
    } else {
      assert a + b == a;
    }
  }

  lemma AddAllSnoc(t: Tally, es: seq<Entry>, e: Entry)
    ensures AddAll(t, es + [e]) == Add(AddAll(t, es), e)
  {
    assert (es + [e])[..|es|] == es;
  }

  /** Adding the steps of `a + b` is adding those of `a`, then those of `b`. */
  lemma {:induction false} AddAllAppend(t: Tally, a: seq<Entry>, b: seq<Entry>)
    ensures AddAll(t, a + b) == AddAll(AddAll(t, a), b)
  {
    if b == [] {
      assert a + b == a;
    } else {
      var b' := b[..|b| - 1];
      assert a + b == (a + b') + [b[|b| - 1]];
      AddAllSnoc(t, a + b', b[|b| - 1]);
      AddAllAppend(t, a, b');
    }
  }

  /** Changing one bucket changes the bucket sums by the difference. */
  lemma {:induction false} TallyUpdate(t: Tally, i: nat, b: Bucket)
    requires i < |t|
    ensures TallyCount(t[i := b]) == TallyCount(t) - t[i].cuenta + b.cuenta
    ensures TallySum(t[i := b]) == TallySum(t) - t[i].suma + b.suma
  {
    var u := t[i := b];
    if i < |t| - 1 {
      assert u[..|u| - 1] == t[..|t| - 1][i := b];
      TallyUpdate(t[..|t| - 1], i, b);
    } else {
      assert u[..|u| - 1] == t[..|t| - 1];
    }
  }

  /** One step: keys stay distinct and in place, and the bucket of the key (old or new)
      grows by the step. */
  lemma {:induction false} AddStep(t: Tally, e: Entry)
    requires DistinctKeys(t)
    ensures var u := Add(t, e);
            && DistinctKeys(u)
            && (|u| == |t| || (|u| == |t| + 1 && u[|t|] == Bucket(e.key, e.n, e.x)))
            && (|u| == |t| + 1 <==> IndexOf(t, e.key).None?)
            && IndexOf(u, e.key).Some?
    ensures var u := Add(t, e);
            forall j | 0 <= j < |t| ::
              && u[j].key == t[j].key
              && u[j].cuenta == t[j].cuenta + (if t[j].key == e.key then e.n else 0)
              && u[j].suma == t[j].suma + (if t[j].key == e.key then e.x else 0.0)
  {
    var u := Add(t, e);
    match IndexOf(t, e.key)
    case Some(i) =>
      assert u == t[i := Bucket(e.key, t[i].cuenta + e.n, t[i].suma + e.x)];
      assert forall j | 0 <= j < |t| :: u[j].key == t[j].key;
      assert forall j | 0 <= j < |t| && j != i :: t[j].key != e.key;
      assert u[i].key == e.key;
    case None =>
      assert u == t + [Bucket(e.key, e.n, e.x)];
      assert u[|t|].key == e.key;
  }

  /** One step adds its integer step to the bucket counts and its amount to the bucket
      amounts. */
  lemma AddSums(t: Tally, e: Entry)
    ensures TallyCount(Add(t, e)) == TallyCount(t) + e.n
    ensures TallySum(Add(t, e)) == TallySum(t) + e.x
  {
    match IndexOf(t, e.key)
    case Some(i) =>
      var b := Bucket(e.key, t[i].cuenta + e.n, t[i].suma + e.x);
      assert Add(t, e) == t[i := b];
      TallyUpdate(t, i, b);
    case None =>
      var u := t + [Bucket(e.key, e.n, e.x)];
      assert Add(t, e) == u;
      assert u[..|u| - 1] == t;
  }

  /** Every step of a counter meets its key's bucket: the keys stay distinct. */
  lemma {:induction false} TalliedDistinct(es: seq<Entry>)
    ensures DistinctKeys(Tallied(es))
  {
    if es != [] {
      TalliedDistinct(es[..|es| - 1]);
      AddStep(Tallied(es[..|es| - 1]), es[|es| - 1]);
    }
  }

  /** A key has a bucket exactly when some step used it. */
  lemma {:induction false} TalliedKeys(es: seq<Entry>, k: string)
    ensures IndexOf(Tallied(es), k).Some? <==> exists i | 0 <= i < |es| :: es[i].key == k
  {
    if es != [] {
      var es', e := es[..|es| - 1], es[|es| - 1];
      TalliedKeys(es', k);
      TalliedDistinct(es');
      UsedKeySnoc(es', e, k);
      assert es == es' + [e];
      if e.key == k {
        AddStep(Tallied(es'), e);
      } else {
        AddOtherKey(Tallied(es'), e, k);
      }
    }
  }

  /** A step under another key neither gives nor takes a bucket of `k`. */
  lemma AddOtherKey(t: Tally, e: Entry, k: string)
    requires DistinctKeys(t) && e.key != k
    ensures IndexOf(Add(t, e), k).Some? <==> IndexOf(t, k).Some?
  {
    AddStep(t, e);
    var u := Add(t, e);
    if IndexOf(u, k).Some? {
      assert IndexOf(u, k).value < |t|;
      assert t[IndexOf(u, k).value].key == k;
    }
    if IndexOf(t, k).Some? {
      assert u[IndexOf(t, k).value].key == k;
    }
  }

  /** Some step of `es + [e]` uses `k` exactly when `e` does or a step of `es` does. */
  lemma UsedKeySnoc(es: seq<Entry>, e: Entry, k: string)
    ensures (exists i | 0 <= i < |es + [e]| :: (es + [e])[i].key == k)
            <==> e.key == k || exists i | 0 <= i < |es| :: es[i].key == k
  {
    var all := es + [e];
    if exists i | 0 <= i < |all| :: all[i].key == k {
      var i :| 0 <= i < |all| && all[i].key == k;
      if i < |es| {
        assert es[i].key == k;
      }
    }
    if exists i | 0 <= i < |es| :: es[i].key == k {
      var i :| 0 <= i < |es| && es[i].key == k;
      assert all[i].key == k;
    }
    assert all[|es|] == e;
  }

  /** A key that no step used adds up to nothing. */
  lemma {:induction false} UnusedKeyZero(es: seq<Entry>, k: string)
    requires forall i | 0 <= i < |es| :: es[i].key != k
    ensures CountOf(es, k) == 0 && AmountOf(es, k) == 0.0
  {
    if es != [] {
      UnusedKeyZero(es[..|es| - 1], k);
    }
  }

  /** Each bucket holds the sum of the steps made under its key. */
  lemma {:induction false} TalliedBuckets(es: seq<Entry>)
    ensures var t := Tallied(es);
            forall j | 0 <= j < |t| :: t[j].cuenta == CountOf(es, t[j].key) && t[j].suma == AmountOf(es, t[j].key)
  {
    if es != [] {
      var es' := es[..|es| - 1];
      var e := es[|es| - 1];
      var t' := Tallied(es');
      var t := Tallied(es);
      TalliedBuckets(es');
      TalliedDistinct(es');
      AddStep(t', e);
      forall j | 0 <= j < |t| ensures t[j].cuenta == CountOf(es, t[j].key) && t[j].suma == AmountOf(es, t[j].key) {
        if j == |t'| {
          TalliedKeys(es', e.key);
          UnusedKeyZero(es', e.key);
        }
      }
    }
  }

  /** The buckets add up to the sum of all the steps. */
  lemma {:induction false} TalliedTotals(es: seq<Entry>)
    ensures TallyCount(Tallied(es)) == SumN(es)
    ensures TallySum(Tallied(es)) == SumX(es)
  {
    if es != [] {
      TalliedTotals(es[..|es| - 1]);
      AddSums(Tallied(es[..|es| - 1]), es[|es| - 1]);
    }
  }

  // ---------- The best seller ----------

  /** The position `max(..., key=cantidad)` returns: a largest count, the first of them. */
  function BestIndex(t: Tally): (b: nat)
    requires t != []
    ensures b < |t|
    ensures forall j | 0 <= j < |t| :: t[j].cuenta <= t[b].cuenta
    ensures forall j | 0 <= j < b :: t[j].cuenta < t[b].cuenta
  {
    if |t| == 1 then 0
    else
      var b := BestIndex(t[..|t| - 1]);
      if t[|t| - 1].cuenta > t[b].cuenta then |t| - 1 else b
  }

  const Ninguno := "Ninguno"

  /** `max(producto_contador.items(), key=..., default=("Ninguno", 0))`. */
  function MasVendido(t: Tally): (r: (string, int))
    ensures t == [] ==> r == (Ninguno, 0)
    ensures t != [] ==> forall j | 0 <= j < |t| :: t[j].cuenta <= r.1
    ensures t != [] && DistinctKeys(t) ==>
              && IndexOf(t, r.0).Some?
              && t[IndexOf(t, r.0).value].cuenta == r.1
              && forall j | 0 <= j < IndexOf(t, r.0).value :: t[j].cuenta < r.1
  {
    if t == [] then (Ninguno, 0)
    else
      var b := BestIndex(t);
      (t[b].key, t[b].cuenta)
  }

  // ---------- The steps obtener_metricas makes ----------

  /** The four bucket granularities. */
  datatype Grain = Dia | Semana | Mes | Anio

  /** The bucket key of a date: "%Y-%m-%d", `semana_label`, "%Y-%m" or the year. */
  function BucketKey(g: Grain, d: Date): string {
    match g
    case Dia => DayKey(d)
    case Semana => SemanaLabel(d)
    case Mes => MonthKey(d)
    case Anio => YearKey(d)
  }

  /** `ventas_por_X[key] += 1` and `ingresos_por_X[key] += total` for one sale. */
  function SaleEntry(g: Grain, v: Sale): Entry {
    Entry(BucketKey(g, v.fecha.date), 1, v.total)
  }

  function SaleEntries(g: Grain, vs: seq<Sale>): (es: seq<Entry>)
    ensures |es| == |vs|
  {
    if vs == [] then [] else SaleEntries(g, vs[..|vs| - 1]) + [SaleEntry(g, vs[|vs| - 1])]
  }

  /** `egresos_por_X[key] += monto` for one expense (the count is not reported). */
  function ExpenseEntry(g: Grain, m: Movement): Entry {
    Entry(BucketKey(g, m.fecha.date), 1, m.monto)
  }

  function ExpenseEntries(g: Grain, ps: seq<Movement>): (es: seq<Entry>)
    ensures |es| == |ps|
  {
    if ps == [] then [] else ExpenseEntries(g, ps[..|ps| - 1]) + [ExpenseEntry(g, ps[|ps| - 1])]
  }

  /** `producto_contador[nombre] += cantidad` for one line. */
  function LineEntry(l: LineItem): Entry {
    Entry(l.nombre, l.cantidad, 0.0)
  }

  function LineEntries(ls: seq<LineItem>): (es: seq<Entry>)
    ensures |es| == |ls|
  {
    if ls == [] then [] else LineEntries(ls[..|ls| - 1]) + [LineEntry(ls[|ls| - 1])]
  }

  /** The lines of all sales, sale by sale. */
  function ItemEntries(vs: seq<Sale>): seq<Entry> {
    if vs == [] then [] else ItemEntries(vs[..|vs| - 1]) + LineEntries(vs[|vs| - 1].items)
  }

  /** `sum(v.get('total', 0) for v in ventas)`. */
  function SumTotals(vs: seq<Sale>): real {
    if vs == [] then 0.0 else SumTotals(vs[..|vs| - 1]) + vs[|vs| - 1].total
  }

  /** `sum(p.get('monto', 0) for p in pagos)`. */
  function SumMontos(ps: seq<Movement>): real {
    if ps == [] then 0.0 else SumMontos(ps[..|ps| - 1]) + ps[|ps| - 1].monto
  }

  /** Each sale adds one to its bucket and its total to the bucket's income. */
  lemma {:induction false} SaleEntriesSums(g: Grain, vs: seq<Sale>)
    ensures SumN(SaleEntries(g, vs)) == |vs|
    ensures SumX(SaleEntries(g, vs)) == SumTotals(vs)
  {
    if vs != [] {
      var es := SaleEntries(g, vs);
      assert es[..|es| - 1] == SaleEntries(g, vs[..|vs| - 1]);
      SaleEntriesSums(g, vs[..|vs| - 1]);
    }
  }

  /** Each expense adds its amount to its bucket. */
  lemma {:induction false} ExpenseEntriesSums(g: Grain, ps: seq<Movement>)
    ensures SumX(ExpenseEntries(g, ps)) == SumMontos(ps)
  {
    if ps != [] {
      var es := ExpenseEntries(g, ps);
      assert es[..|es| - 1] == ExpenseEntries(g, ps[..|ps| - 1]);
      ExpenseEntriesSums(g, ps[..|ps| - 1]);
    }
  }

  /** The amounts of the expense movements are the ledger's expense sum. */
  lemma {:induction false} ExpenseSumIsLedgerSum(ms: seq<Movement>)
    ensures SumMontos(OfKind(ms, Egreso)) == SumOf(ms, Egreso)
  {
    if ms != [] {
      var ms' := ms[..|ms| - 1];
      var m := ms[|ms| - 1];
      var p := (x: Movement) => x.tipo == Egreso;
      assert ms == ms' + [m];
      FilterAppend(ms', [m], p);
      assert [m][1..] == [];
      ExpenseSumIsLedgerSum(ms');
      if m.tipo == Egreso {
        var f := OfKind(ms, Egreso);
        assert f == OfKind(ms', Egreso) + [m];
        assert f[..|f| - 1] == OfKind(ms', Egreso);
      } else {
        assert OfKind(ms, Egreso) == OfKind(ms', Egreso);
      }
    }
  }

  // ---------- obtener_metricas ----------

  /** The JSON `obtener_metricas` answers with. In the sale buckets `cuenta` is
      `ventas_por_X` and `suma` is `ingresos_por_X`; in the expense buckets `suma` is
      `egresos_por_X`. */
  datatype Metricas = Metricas(
    saldoActual: real,
    totalVentas: nat,
    totalPagos: nat,
    totalIngresos: real,
    totalEgresos: real,
    totalItems: int,
    masVendido: (string, int),
    ventasDia: Tally,
    ventasSemana: Tally,
    ventasMes: Tally,
    ventasAnio: Tally,
    egresosDia: Tally,
    egresosSemana: Tally,
    egresosMes: Tally,
    egresosAnio: Tally)

  /** What `obtener_metricas` reports for a balance, the sales and the ledger. */
  function Calculadas(saldo: real, vs: seq<Sale>, ms: seq<Movement>): Metricas {
    var pagos := OfKind(ms, Egreso);
    Metricas(
      saldo, |vs|, |pagos|, SumTotals(vs), SumMontos(pagos), SumN(ItemEntries(vs)),
      MasVendido(Tallied(ItemEntries(vs))),
      Tallied(SaleEntries(Dia, vs)), Tallied(SaleEntries(Semana, vs)),
      Tallied(SaleEntries(Mes, vs)), Tallied(SaleEntries(Anio, vs)),
      Tallied(ExpenseEntries(Dia, pagos)), Tallied(ExpenseEntries(Semana, pagos)),
      Tallied(ExpenseEntries(Mes, pagos)), Tallied(ExpenseEntries(Anio, pagos)))
  }

  /** The totals: expenses are exactly the `egreso` movements and their amounts, and with
      a reconciled ledger the balance is the income of the ledger less those expenses. */
  lemma TotalsMeaning(saldo: real, vs: seq<Sale>, ms: seq<Movement>)
    ensures var m := Calculadas(saldo, vs, ms);
            && m.totalVentas == |vs| && m.totalIngresos == SumTotals(vs)
            && m.totalPagos == |OfKind(ms, Egreso)|
            && m.totalEgresos == SumOf(ms, Egreso)
            && (Reconciled(saldo, ms) ==> m.saldoActual == SumOf(ms, Ingreso) - m.totalEgresos)
  {
    ExpenseSumIsLedgerSum(ms);
  }

  /** For every granularity the buckets add up to the totals: sale counts to
      `total_ventas`, income to `total_ingresos`, expenses to `total_egresos`, and the
      quantities per product to `total_items`. */
  lemma BucketsAddUp(saldo: real, vs: seq<Sale>, ms: seq<Movement>, g: Grain)
    ensures var m := Calculadas(saldo, vs, ms);
            && TallyCount(Tallied(SaleEntries(g, vs))) == m.totalVentas
            && TallySum(Tallied(SaleEntries(g, vs))) == m.totalIngresos
            && TallySum(Tallied(ExpenseEntries(g, OfKind(ms, Egreso)))) == m.totalEgresos
            && TallyCount(Tallied(ItemEntries(vs))) == m.totalItems
  {
    TalliedTotals(SaleEntries(g, vs));
    SaleEntriesSums(g, vs);
    TalliedTotals(ExpenseEntries(g, OfKind(ms, Egreso)));
    ExpenseEntriesSums(g, OfKind(ms, Egreso));
    TalliedTotals(ItemEntries(vs));
  }

  /** The best seller: with no items at all, ("Ninguno", 0); otherwise the name with the
      largest quantity sold, the first such in order of first sale, with that quantity. */
  lemma BestSellerMeaning(saldo: real, vs: seq<Sale>, ms: seq<Movement>)
    ensures var m := Calculadas(saldo, vs, ms);
            ItemEntries(vs) == [] ==> m.masVendido == (Ninguno, 0)
    ensures var m := Calculadas(saldo, vs, ms);
            var es := ItemEntries(vs);
            es != [] ==>
              && (exists i | 0 <= i < |es| :: es[i].key == m.masVendido.0)
              && m.masVendido.1 == CountOf(es, m.masVendido.0)
              && forall i | 0 <= i < |es| :: CountOf(es, es[i].key) <= m.masVendido.1
  {
    var es := ItemEntries(vs);
    var t := Tallied(es);
    TalliedDistinct(es);
    TalliedBuckets(es);
    if es != [] {
      TalliedKeys(es, es[0].key);
      var r := MasVendido(t);
      TalliedKeys(es, r.0);
      forall i | 0 <= i < |es| ensures CountOf(es, es[i].key) <= r.1 {
        TalliedKeys(es, es[i].key);
      }
    }
  }

  /** `for item in venta.get("items", [])`: the inner loop over the lines of one sale. */
  method ContarItems(contador: Tally, total: int, items: seq<LineItem>) returns (c: Tally, n: int)
    ensures c == AddAll(contador, LineEntries(items))
    ensures n == total + SumN(LineEntries(items))
  {
    c, n := contador, total;
    var j := 0;
    while j < |items|
      invariant 0 <= j <= |items|
      invariant c == AddAll(contador, LineEntries(items[..j]))
      invariant n == total + SumN(LineEntries(items[..j]))
    {
      assert items[..j + 1][..j] == items[..j];
      AddAllSnoc(contador, LineEntries(items[..j]), LineEntry(items[j]));
      SumNAppend(LineEntries(items[..j]), [LineEntry(items[j])]);
      c := Add(c, LineEntry(items[j]));
      n := n + items[j].cantidad;
      j := j + 1;
    }
    assert items[..j] == items;
  }

  lemma SaleStep(g: Grain, vs: seq<Sale>, i: nat)
    requires i < |vs|
    ensures Tallied(SaleEntries(g, vs[..i + 1])) == Add(Tallied(SaleEntries(g, vs[..i])), SaleEntry(g, vs[i]))
  {
    assert vs[..i + 1][..i] == vs[..i];
    AddAllSnoc([], SaleEntries(g, vs[..i]), SaleEntry(g, vs[i]));
  }

  lemma ExpenseStep(g: Grain, ps: seq<Movement>, i: nat)
    requires i < |ps|
    ensures Tallied(ExpenseEntries(g, ps[..i + 1])) == Add(Tallied(ExpenseEntries(g, ps[..i])), ExpenseEntry(g, ps[i]))
  {
    assert ps[..i + 1][..i] == ps[..i];
    AddAllSnoc([], ExpenseEntries(g, ps[..i]), ExpenseEntry(g, ps[i]));
  }

  lemma ItemStep(vs: seq<Sale>, i: nat)
    requires i < |vs|
    ensures ItemEntries(vs[..i + 1]) == ItemEntries(vs[..i]) + LineEntries(vs[i].items)
  {
    assert vs[..i + 1][..i] == vs[..i];
  }

  /** `obtener_metricas`: the loop over the sales, the loop over the expenses, and the
      best seller. */
  method ObtenerMetricas(saldo: real, vs: seq<Sale>, ms: seq<Movement>) returns (m: Metricas)
    ensures m == Calculadas(saldo, vs, ms)
  {
    var pagos := OfKind(ms, Egreso);
    var totalItems := 0;
    var dia: Tally, semana: Tally, mes: Tally, anio: Tally := [], [], [], [];
    var contador: Tally := [];
    var i := 0;
    while i < |vs|
      invariant 0 <= i <= |vs|
      invariant dia == Tallied(SaleEntries(Dia, vs[..i]))
      invariant semana == Tallied(SaleEntries(Semana, vs[..i]))
      invariant mes == Tallied(SaleEntries(Mes, vs[..i]))
      invariant anio == Tallied(SaleEntries(Anio, vs[..i]))
      invariant contador == Tallied(ItemEntries(vs[..i]))
      invariant totalItems == SumN(ItemEntries(vs[..i]))
    {
      var v := vs[i];
      SaleStep(Dia, vs, i);
      SaleStep(Semana, vs, i);
      SaleStep(Mes, vs, i);
      SaleStep(Anio, vs, i);
      dia := Add(dia, SaleEntry(Dia, v));
      semana := Add(semana, SaleEntry(Semana, v));
      mes := Add(mes, SaleEntry(Mes, v));
      anio := Add(anio, SaleEntry(Anio, v));
      ItemStep(vs, i);
      AddAllAppend([], ItemEntries(vs[..i]), LineEntries(v.items));
      SumNAppend(ItemEntries(vs[..i]), LineEntries(v.items));
      contador, totalItems := ContarItems(contador, totalItems, v.items);
      i := i + 1;
    }
    assert vs[..i] == vs;
    var eDia: Tally, eSemana: Tally, eMes: Tally, eAnio: Tally := [], [], [], [];
    var k := 0;
    while k < |pagos|
      invariant 0 <= k <= |pagos|
      invariant eDia == Tallied(ExpenseEntries(Dia, pagos[..k]))
      invariant eSemana == Tallied(ExpenseEntries(Semana, pagos[..k]))
      invariant eMes == Tallied(ExpenseEntries(Mes, pagos[..k]))
      invariant eAnio == Tallied(ExpenseEntries(Anio, pagos[..k]))
    {
      var p := pagos[k];
      ExpenseStep(Dia, pagos, k);
      ExpenseStep(Semana, pagos, k);
      ExpenseStep(Mes, pagos, k);
      ExpenseStep(Anio, pagos, k);
      eDia := Add(eDia, ExpenseEntry(Dia, p));
      eSemana := Add(eSemana, ExpenseEntry(Semana, p));
      eMes := Add(eMes, ExpenseEntry(Mes, p));
      eAnio := Add(eAnio, ExpenseEntry(Anio, p));
      k := k + 1;
    }
    assert pagos[..k] == pagos;
    m := Metricas(saldo, |vs|, |pagos|, SumTotals(vs), SumMontos(pagos), totalItems,
                  MasVendido(contador), dia, semana, mes, anio, eDia, eSemana, eMes, eAnio);
  }
}

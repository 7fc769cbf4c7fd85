/** The cash ledger (`caja`): a balance and the list of income and expense movements,
    the validation of the income and expense endpoints, and the movement query
    (newest first, optional type filter, one page). */
module Caja {
  import opened Common
  import opened Calendar

  datatype Kind = Ingreso | Egreso

  /** One entry of `caja["movimientos"]`. `descripcion` is whatever JSON value the
      request sent (an expense stores it as is). `detalles` holds the recipient, concept and
      method of an expense when any was given; `facturaId` is the back-link an invoice
      writes onto the movement of its sale. */
  datatype Movement = Movement(
    id: string,
    tipo: Kind,
    monto: real,
    descripcion: Value,
    fecha: DateTime,
    detalles: Option<map<string, Value>>,
    facturaId: Option<string>)

  const DatosInvalidos := "Datos inválidos"
  const MontoInvalido := "Monto inválido"

  // ---------- The balance and its history ----------

  /** Σ of the amounts of the movements of kind `k`. */
  function SumOf(ms: seq<Movement>, k: Kind): real {
    if ms == [] then 0.0
    else SumOf(ms[..|ms| - 1], k) + (if ms[|ms| - 1].tipo == k then ms[|ms| - 1].monto else 0.0)
  }

  /** The movements of kind `k`, in ledger order. */
  function OfKind(ms: seq<Movement>, k: Kind): seq<Movement> {
    Filter(ms, (m: Movement) => m.tipo == k)
  }

  /** The balance agrees with the history: Σ income amounts − Σ expense amounts. */
  predicate Reconciled(saldo: real, ms: seq<Movement>) {
    saldo == SumOf(ms, Ingreso) - SumOf(ms, Egreso)
  }

  /** What a movement does to the balance: income adds its amount, an expense subtracts it. */
  function Effect(m: Movement): real {
    if m.tipo == Ingreso then m.monto else -m.monto
  }

  /** Appending a movement and applying its effect to the balance keeps the two reconciled. */
  lemma AppendKeepsReconciled(saldo: real, ms: seq<Movement>, m: Movement)
    requires Reconciled(saldo, ms)
    ensures Reconciled(saldo + Effect(m), ms + [m])
  {
    assert (ms + [m])[..|ms|] == ms;
  }

  /** Two histories whose entries agree in kind and amount have the same sums: changing
      any other field of a movement leaves the balance reconciled. */
  lemma {:induction false} SameAmountsSameSums(a: seq<Movement>, b: seq<Movement>, k: Kind)
    requires |a| == |b|
    requires forall i | 0 <= i < |a| :: a[i].tipo == b[i].tipo && a[i].monto == b[i].monto
    ensures SumOf(a, k) == SumOf(b, k)
  {
    if a != [] {
      SameAmountsSameSums(a[..|a| - 1], b[..|b| - 1], k);
    }
  }

  /** `cargar_caja` on a missing file: balance 0 and no movements, which reconcile. */
  lemma EmptyLedgerReconciled()
    ensures Reconciled(0.0, [])
  {
  }

  // ---------- registrar_ingreso / registrar_egreso ----------

  /** The body of a `registrar_ingreso` request. */
  datatype IngresoRequest = IngresoRequest(total: Option<Value>, descripcion: Option<Value>)

  /** The body of a `registrar_egreso` request. */
  datatype EgresoRequest = EgresoRequest(
    total: Option<Value>,
    descripcion: Option<Value>,
    destinatario: Option<Value>,
    concepto: Option<Value>,
    metodo: Option<Value>)

  /** `float(total)` followed by the `monto <= 0` test: the positive amount, or None. */
  function ParseMonto(v: Value): (r: Option<real>)
    ensures r.Some? ==> r.value > 0.0
    ensures r.None? <==> ToFloat(v).None? || ToFloat(v).value <= 0.0
  {
    match ToFloat(v)
    case Some(x) => if x > 0.0 then Some(x) else None
    case None => None
  }

  /** The checks of `registrar_ingreso`: both keys present, then a positive amount. */
  function ValidateIngreso(req: IngresoRequest): (r: Result<real>)
    ensures r.Ok? <==> req.total.Some? && req.descripcion.Some? && ParseMonto(req.total.value).Some?
    ensures r.Ok? ==> r.value > 0.0 && Some(r.value) == ToFloat(req.total.value)
    ensures r.Err? ==> r.error in {DatosInvalidos, MontoInvalido}
    ensures req.total.None? || req.descripcion.None? ==> r == Err(DatosInvalidos)
    ensures req.total.Some? && req.descripcion.Some? && ParseMonto(req.total.value).None?
            ==> r == Err(MontoInvalido)
  {
    if req.total.None? || req.descripcion.None? then Err(DatosInvalidos)
    else match ParseMonto(req.total.value)
      case None => Err(MontoInvalido)
      case Some(x) => Ok(x)
  }

  /** The checks of `registrar_egreso`: both keys present with a truthy value, then a
      positive amount. */
  function ValidateEgreso(req: EgresoRequest): (r: Result<real>)
    ensures r.Ok? <==> req.total.Some? && Truthy(req.total.value) && req.descripcion.Some?
                       && Truthy(req.descripcion.value) && ParseMonto(req.total.value).Some?
    ensures r.Ok? ==> r.value > 0.0 && Some(r.value) == ToFloat(req.total.value)
    ensures r.Err? ==> r.error in {DatosInvalidos, MontoInvalido}
    ensures req.total.None? || !Truthy(req.total.value) || req.descripcion.None?
              || !Truthy(req.descripcion.value)
            ==> r == Err(DatosInvalidos)
    ensures req.total.Some? && Truthy(req.total.value) && req.descripcion.Some?
              && Truthy(req.descripcion.value) && ParseMonto(req.total.value).None?
            ==> r == Err(MontoInvalido)
  {
    if req.descripcion.None? || !Truthy(req.descripcion.value) || req.total.None? || !Truthy(req.total.value)
    then Err(DatosInvalidos)
    else match ParseMonto(req.total.value)
      case None => Err(MontoInvalido)
      case Some(x) => Ok(x)
  }

  /** The income movement `registrar_ingreso` appends: its description is the text
      `Venta #` followed by `str()` of the description sent. */
  function IngresoMovement(id: string, monto: real, descripcion: Value, now: DateTime): Movement {
    Movement(id, Ingreso, monto, Str("Venta #" + PyStr(descripcion)), now, None, None)
  }

  /** The income description for a text, JSON `null` and a boolean: `str()` of each. */
  lemma IngresoDescriptionsOfText(id: string, now: DateTime, s: string)
    ensures IngresoMovement(id, 1.0, Str(s), now).descripcion == Str("Venta #" + s)
    ensures IngresoMovement(id, 1.0, Null, now).descripcion == Str("Venta #None")
    ensures IngresoMovement(id, 1.0, Bool(true), now).descripcion == Str("Venta #True")
  {
  }

  /** The income description for integers and an integral float: their decimal text. */
  lemma IngresoDescriptionsOfNumbers(id: string, now: DateTime)
    ensures IngresoMovement(id, 1.0, Int(42), now).descripcion == Str("Venta #42")
    ensures IngresoMovement(id, 1.0, Int(-7), now).descripcion == Str("Venta #-7")
    ensures IngresoMovement(id, 1.0, Num(3.0), now).descripcion == Str("Venta #3.0")
  {
    assert NatToString(4) == "4";
    assert NatToString(42) == NatToString(4) + [DigitChar(2)] == "42";
    assert IntToString(-7) == "-" + NatToString(7) == "-7";
    assert (3.0).Floor == 3 && NatToString(3) == "3";
  }

  /** `{k: data[k] for k in ["destinatario", "concepto", "metodo"] if k in data}`. */
  function Detalles(req: EgresoRequest): (d: map<string, Value>)
    ensures "destinatario" in d <==> req.destinatario.Some?
    ensures "concepto" in d <==> req.concepto.Some?
    ensures "metodo" in d <==> req.metodo.Some?
    ensures d.Keys <= {"destinatario", "concepto", "metodo"}
    ensures forall k | k in d :: d[k] == (if k == "destinatario" then req.destinatario.value
                                          else if k == "concepto" then req.concepto.value
                                          else req.metodo.value)
  {
    var d1 := if req.destinatario.Some? then map["destinatario" := req.destinatario.value] else map[];
    var d2 := if req.concepto.Some? then d1["concepto" := req.concepto.value] else d1;
    if req.metodo.Some? then d2["metodo" := req.metodo.value] else d2
  }

  /** The expense movement `registrar_egreso` appends; it carries `detalles` only when
      that map is not empty. */
  function EgresoMovement(id: string, monto: real, req: EgresoRequest, now: DateTime): (m: Movement)
    requires req.descripcion.Some?
    ensures m.tipo == Egreso && m.monto == monto && m.id == id
    ensures m.descripcion == req.descripcion.value && m.fecha == now && m.facturaId.None?
    ensures m.detalles.Some? <==> req.destinatario.Some? || req.concepto.Some? || req.metodo.Some?
    ensures m.detalles.Some? ==> m.detalles.value == Detalles(req)
  {
    var d := Detalles(req);
    Movement(id, Egreso, monto, req.descripcion.value, now, if d == map[] then None else Some(d), None)
  }

  // ---------- obtener_caja ----------

  /** No entry is earlier than one after it: newest first. */
  predicate NewestFirst(ms: seq<Movement>) {
    forall i, j | 0 <= i < j < |ms| :: !Earlier(ms[i].fecha, ms[j].fecha)
  }

  /** The movements with timestamp `t`, in list order. A stable sort keeps this list. */
  function SameTime(ms: seq<Movement>, t: DateTime): seq<Movement> {
    Filter(ms, (m: Movement) => m.fecha == t)
  }

  /** `x` is at least as new as every entry of `s`. */
  predicate AtLeastAsNew(x: Movement, s: seq<Movement>) {
    forall j | 0 <= j < |s| :: !Earlier(x.fecha, s[j].fecha)
  }

  lemma ConsNewestFirst(x: Movement, s: seq<Movement>)
    requires NewestFirst(s) && AtLeastAsNew(x, s)
    ensures NewestFirst([x] + s)
  {
    var r := [x] + s;
    forall i, j | 0 <= i < j < |r|
      ensures !Earlier(r[i].fecha, r[j].fecha)
    {
      assert r[j] == s[j - 1];
      if i > 0 {
        assert r[i] == s[i - 1];
      }
    }
  }

  /** Places `m` before the first entry that is not newer than it. */
  function Insert(m: Movement, s: seq<Movement>): (r: seq<Movement>)
    ensures |r| == |s| + 1
  {
    if s == [] || !Earlier(m.fecha, s[0].fecha) then [m] + s
    else [s[0]] + Insert(m, s[1..])
  }

  lemma {:induction false} InsertPermutes(m: Movement, s: seq<Movement>)
    ensures multiset(Insert(m, s)) == multiset{m} + multiset(s)
  {
    if s != [] && Earlier(m.fecha, s[0].fecha) {
      InsertPermutes(m, s[1..]);
      assert s == [s[0]] + s[1..];
    }
  }

  lemma {:induction false} InsertBound(x: Movement, m: Movement, s: seq<Movement>)
    requires AtLeastAsNew(x, s) && !Earlier(x.fecha, m.fecha)
    ensures AtLeastAsNew(x, Insert(m, s))
  {
    if s == [] || !Earlier(m.fecha, s[0].fecha) {
      var r := [m] + s;
      forall j | 0 <= j < |r| ensures !Earlier(x.fecha, r[j].fecha) {
        if j > 0 { assert r[j] == s[j - 1]; }
      }
    } else {
      InsertBound(x, m, s[1..]);
      var r := [s[0]] + Insert(m, s[1..]);
      forall j | 0 <= j < |r| ensures !Earlier(x.fecha, r[j].fecha) {
        if j > 0 { assert r[j] == Insert(m, s[1..])[j - 1]; }
      }
    }
  }

  lemma {:induction false} InsertSorted(m: Movement, s: seq<Movement>)
    requires NewestFirst(s)
    ensures NewestFirst(Insert(m, s))
  {
    if s == [] || !Earlier(m.fecha, s[0].fecha) {
      ConsNewestFirst(m, s);
    } else {
      var t := s[1..];
      assert NewestFirst(t) by {
        forall i, j | 0 <= i < j < |t| ensures !Earlier(t[i].fecha, t[j].fecha) {
          assert t[i] == s[i + 1] && t[j] == s[j + 1];
        }
      }
      InsertSorted(m, t);
      assert AtLeastAsNew(s[0], t) by {
        forall j | 0 <= j < |t| ensures !Earlier(s[0].fecha, t[j].fecha) {
          assert t[j] == s[j + 1];
        }
      }
      InsertBound(s[0], m, t);
      ConsNewestFirst(s[0], Insert(m, t));
    }
  }

  /** `movimientos.sort(key=fecha, reverse=True)`: newest first and a permutation of the
      movements; `SortIsStable` adds that equal timestamps keep their order. */
  function SortNewestFirst(ms: seq<Movement>): (r: seq<Movement>)
    ensures multiset(r) == multiset(ms)
    ensures NewestFirst(r)
  {
    if ms == [] then []
    else
      var rest := SortNewestFirst(ms[1..]);
      InsertPermutes(ms[0], rest);
      InsertSorted(ms[0], rest);
      assert ms == [ms[0]] + ms[1..];
      Insert(ms[0], rest)
  }

  lemma {:induction false} InsertSameTime(m: Movement, s: seq<Movement>, t: DateTime)
    ensures SameTime(Insert(m, s), t) == SameTime([m] + s, t)
  {
    if s != [] && Earlier(m.fecha, s[0].fecha) {
      InsertSameTime(m, s[1..], t);
      var p := (x: Movement) => x.fecha == t;
      FilterAppend([s[0]], Insert(m, s[1..]), p);
      FilterAppend([m], s, p);
      FilterAppend([m], s[1..], p);
      FilterAppend([s[0]], s[1..], p);
      assert s == [s[0]] + s[1..];
    }
  }

  /** The sort is stable: for every timestamp, the movements carrying it appear in the
      same relative order before and after sorting. */
  lemma {:induction false} SortIsStable(ms: seq<Movement>, t: DateTime)
    ensures SameTime(SortNewestFirst(ms), t) == SameTime(ms, t)
  {
    if ms != [] {
      SortIsStable(ms[1..], t);
      InsertSameTime(ms[0], SortNewestFirst(ms[1..]), t);
      FilterAppend([ms[0]], SortNewestFirst(ms[1..]), (m: Movement) => m.fecha == t);
      FilterAppend([ms[0]], ms[1..], (m: Movement) => m.fecha == t);
      assert ms == [ms[0]] + ms[1..];
    }
  }

  /** The `tipo` query argument: a filter only for "ingreso" and "egreso". */
  function KindFilter(tipo: Option<string>): Option<Kind> {
    if tipo == Some("ingreso") then Some(Ingreso)
    else if tipo == Some("egreso") then Some(Egreso)
    else None
  }

  function FilterTipo(ms: seq<Movement>, tipo: Option<string>): seq<Movement> {
    match KindFilter(tipo)
    case Some(k) => OfKind(ms, k)
    case None => ms
  }

  /** The JSON `obtener_caja` answers with. */
  datatype CajaPage = CajaPage(
    saldo: real, movimientos: seq<Movement>, page: int, perPage: int, total: nat, totalPages: nat)

  /** `obtener_caja`: sort newest first, keep the requested type, cut out one page. The
      facts about the page's content are `ObtenerCajaPage`. */
  function ObtenerCaja(saldo: real, ms: seq<Movement>, tipo: Option<string>,
                       pageArg: Option<string>, perPageArg: Option<string>): (r: CajaPage)
    requires PagingOk(pageArg, perPageArg)
    ensures r.saldo == saldo
    ensures (r.page, r.perPage) == PagingArgs(pageArg, perPageArg)
    ensures r.total == |FilterTipo(ms, tipo)|
    ensures r.totalPages == TotalPages(r.total, r.perPage)
    ensures r.movimientos == Page(FilterTipo(SortNewestFirst(ms), tipo), r.page, r.perPage)
  {
    var (page, perPage) := PagingArgs(pageArg, perPageArg);
    var filtered := FilterTipo(SortNewestFirst(ms), tipo);
    FilterTipoPreservesCount(ms, tipo);
    CajaPage(saldo, Page(filtered, page, perPage), page, perPage, |filtered|, TotalPages(|filtered|, perPage))
  }

  /** The page `obtener_caja` returns is newest first, holds only ledger movements, and
      only movements of the requested type when one was given. */
  lemma ObtenerCajaPage(saldo: real, ms: seq<Movement>, tipo: Option<string>,
                        pageArg: Option<string>, perPageArg: Option<string>)
    requires PagingOk(pageArg, perPageArg)
    ensures var r := ObtenerCaja(saldo, ms, tipo, pageArg, perPageArg);
      && NewestFirst(r.movimientos)
      && (forall m | m in r.movimientos :: m in ms)
      && (KindFilter(tipo).Some? ==> forall m | m in r.movimientos :: m.tipo == KindFilter(tipo).value)
      && (KindFilter(tipo).None? ==> r.total == |ms|)
  {
    var r := ObtenerCaja(saldo, ms, tipo, pageArg, perPageArg);
    var sorted := SortNewestFirst(ms);
    var filtered := FilterTipo(sorted, tipo);
    FilterKeepsOrder(sorted, tipo);
    assert forall m | m in sorted :: m in ms by {
      assert forall m | m in sorted :: m in multiset(sorted);
    }
    FilterTipoSubset(sorted, tipo);
    PageOfNewestFirst(filtered, r.page, r.perPage);
  }

  /** A page of a newest-first list is newest first and made of entries of the list. */
  lemma PageOfNewestFirst(xs: seq<Movement>, page: int, perPage: int)
    requires page >= 1 && perPage >= 1
    requires NewestFirst(xs)
    ensures NewestFirst(Page(xs, page, perPage))
    ensures forall m | m in Page(xs, page, perPage) :: m in xs
  {
    PageIsSlice(xs, page, perPage);
    var q := Page(xs, page, perPage);
    var start := (page - 1) * perPage;
    if start < |xs| {
      assert q == xs[start..start + |q|];
      forall i, j | 0 <= i < j < |q| ensures !Earlier(q[i].fecha, q[j].fecha) {
        assert q[i] == xs[start + i] && q[j] == xs[start + j];
      }
    }
  }

  lemma FilterTipoSubset(s: seq<Movement>, tipo: Option<string>)
    ensures forall m | m in FilterTipo(s, tipo) :: m in s
    ensures KindFilter(tipo).Some? ==> forall m | m in FilterTipo(s, tipo) :: m.tipo == KindFilter(tipo).value
  {
    match KindFilter(tipo)
    case None =>
    case Some(k) =>
      OfKindSubset(s, k);
  }

  lemma OfKindSubset(s: seq<Movement>, k: Kind)
    ensures forall m | m in OfKind(s, k) :: m in s && m.tipo == k
  {
    FilterSubset(s, (m: Movement) => m.tipo == k);
  }

  lemma FilterKeepsOrder(s: seq<Movement>, tipo: Option<string>)
    requires NewestFirst(s)
    ensures NewestFirst(FilterTipo(s, tipo))
  {
    match KindFilter(tipo)
    case None =>
    case Some(k) => SubsequenceNewestFirst(s, k);
  }

  lemma {:induction false} SubsequenceNewestFirst(s: seq<Movement>, k: Kind)
    requires NewestFirst(s)
    ensures NewestFirst(OfKind(s, k))
  {
    if s != [] {
      SubsequenceNewestFirst(s[1..], k);
      var rest := OfKind(s[1..], k);
      OfKindSubset(s[1..], k);
      assert forall j | 0 <= j < |rest| :: !Earlier(s[0].fecha, rest[j].fecha) by {
        forall j | 0 <= j < |rest|
          ensures !Earlier(s[0].fecha, rest[j].fecha)
        {
          assert rest[j] in s[1..];
          var i :| 0 <= i < |s[1..]| && s[1..][i] == rest[j];
          assert s[i + 1] == rest[j];
        }
      }
    }
  }

  /** Sorting does not change how many movements of each type there are. */
  lemma FilterTipoPreservesCount(ms: seq<Movement>, tipo: Option<string>)
    ensures |FilterTipo(SortNewestFirst(ms), tipo)| == |FilterTipo(ms, tipo)|
  {
    match KindFilter(tipo)
    case None =>
    case Some(k) => SortPreservesKindCount(ms, k);
  }

  lemma {:induction false} SortPreservesKindCount(ms: seq<Movement>, k: Kind)
    ensures |OfKind(SortNewestFirst(ms), k)| == |OfKind(ms, k)|
  {
    if ms != [] {
      SortPreservesKindCount(ms[1..], k);
      InsertKindCount(ms[0], SortNewestFirst(ms[1..]), k);
      assert ms == [ms[0]] + ms[1..];
      FilterAppend([ms[0]], ms[1..], (m: Movement) => m.tipo == k);
      FilterAppend([ms[0]], SortNewestFirst(ms[1..]), (m: Movement) => m.tipo == k);
    }
  }

  lemma {:induction false} InsertKindCount(m: Movement, s: seq<Movement>, k: Kind)
    ensures |OfKind(Insert(m, s), k)| == |OfKind([m] + s, k)|
  {
    if s != [] && Earlier(m.fecha, s[0].fecha) {
      InsertKindCount(m, s[1..], k);
      var p := (x: Movement) => x.tipo == k;
      FilterAppend([s[0]], Insert(m, s[1..]), p);
      FilterAppend([m], s, p);
      FilterAppend([m], s[1..], p);
      FilterAppend([s[0]], s[1..], p);
      assert s == [s[0]] + s[1..];
    }
  }
}

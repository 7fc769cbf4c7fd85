/** Payments: the field checks of `registrar_pago` (a loop over the required fields with
    a special case for the amount), the amount and date checks, the stored payment with
    its count-based id, and the expense movement that mirrors it in the ledger. */
module Pagos {
  import opened Common
  import opened Calendar
  import opened Caja

  /** One entry of `pagos.json`. */
  datatype Payment = Payment(
    id: string,
    fecha: DateTime,
    destinatario: string,
    concepto: string,
    descripcion: string,
    monto: real,
    metodo: string)

  /** The `fecha` field once the date formats have been tried: absent or falsy, none of
      the formats fits, or the timestamp it stands for. */
  datatype FechaInput = NoFecha | Unparseable | Parsed(dt: DateTime)

  /** The body of a `registrar_pago` request; None when a key is absent. */
  datatype PagoDatos = PagoDatos(
    destinatario: Option<Value>,
    concepto: Option<Value>,
    descripcion: Option<Value>,
    monto: Option<Value>,
    metodo: Option<Value>,
    fecha: FechaInput)

  const FaltanCampos := "Faltan campos requeridos"
  const MontoNoValido := "El monto no es válido"
  const MontoNoPositivo := "El monto debe ser mayor a cero"
  const FormatoFecha := "Formato de fecha inválido. Acepto YYYY-MM-DD, DD/MM/YYYY o MM/DD/YYYY"
  const FechaFutura := "No se permiten fechas futuras"

  function CampoObligatorio(campo: string): string {
    "El campo '" + campo + "' es obligatorio y no puede estar vacío"
  }

  /** The required fields. */
  datatype Field = Destinatario | Concepto | Descripcion | Monto | Metodo

  function Name(f: Field): string {
    match f
    case Destinatario => "destinatario"
    case Concepto => "concepto"
    case Descripcion => "descripcion"
    case Monto => "monto"
    case Metodo => "metodo"
  }

  /** `campos_requeridos`, in the order they are checked. */
  const Requeridos: seq<Field> := [Destinatario, Concepto, Descripcion, Monto, Metodo]

  /** `data.get(campo)`. */
  function Campo(d: PagoDatos, f: Field): Option<Value> {
    match f
    case Destinatario => d.destinatario
    case Concepto => d.concepto
    case Descripcion => d.descripcion
    case Monto => d.monto
    case Metodo => d.metodo
  }

  /** Present, a string, and not blank once stripped. */
  predicate Texto(v: Option<Value>) {
    v.Some? && v.value.Str? && Strip(v.value.s) != ""
  }

  /** The amount may also be a number: it only fails when absent or a blank string
      (`str(x).strip()` of any other value is not empty). */
  predicate MontoPresente(v: Option<Value>) {
    v.Some? && !(v.value.Str? && Strip(v.value.s) == "")
  }

  /** The check of one required field, with its message. */
  function CampoError(d: PagoDatos, f: Field): Option<string> {
    if Texto(Campo(d, f)) then None
    else if f == Monto then (if MontoPresente(d.monto) then None else Some(FaltanCampos))
    else Some(CampoObligatorio(Name(f)))
  }

  /** The message of the first field from position `k` of `campos_requeridos` on that
      fails, if any. */
  function FirstError(d: PagoDatos, k: nat): Option<string>
    decreases |Requeridos| - k
  {
    if k >= |Requeridos| then None
    else if CampoError(d, Requeridos[k]).Some? then CampoError(d, Requeridos[k])
    else FirstError(d, k + 1)
  }

  /** The first of two answers that is there. */
  function OrElse(a: Option<string>, b: Option<string>): Option<string> {
    if a.Some? then a else b
  }

  /** The loop's answer written out field by field. */
  lemma FirstErrorUnrolled(d: PagoDatos)
    ensures FirstError(d, 0) ==
              OrElse(CampoError(d, Destinatario), OrElse(CampoError(d, Concepto),
              OrElse(CampoError(d, Descripcion), OrElse(CampoError(d, Monto),
              OrElse(CampoError(d, Metodo), None)))))
  {
    assert FirstError(d, 5) == None;
    assert FirstError(d, 4) == OrElse(CampoError(d, Metodo), FirstError(d, 5));
    assert FirstError(d, 3) == OrElse(CampoError(d, Monto), FirstError(d, 4));
    assert FirstError(d, 2) == OrElse(CampoError(d, Descripcion), FirstError(d, 3));
    assert FirstError(d, 1) == OrElse(CampoError(d, Concepto), FirstError(d, 2));
  }

  /** The loop finds nothing exactly when every field passes. */
  lemma FirstErrorNone(d: PagoDatos)
    ensures FirstError(d, 0).None? <==>
              CampoError(d, Destinatario).None? && CampoError(d, Concepto).None?
              && CampoError(d, Descripcion).None? && CampoError(d, Monto).None?
              && CampoError(d, Metodo).None?
  {
    FirstErrorUnrolled(d);
  }

  /** A field passes its check exactly when it is a non-blank string, or for the amount
      when it is there and not a blank string. */
  lemma CampoErrorNone(d: PagoDatos, f: Field)
    ensures CampoError(d, f).None? <==> if f == Monto then MontoPresente(d.monto) else Texto(Campo(d, f))
    ensures f == Monto && !MontoPresente(d.monto) ==> CampoError(d, f) == Some(FaltanCampos)
    ensures f != Monto && !Texto(Campo(d, f)) ==> CampoError(d, f) == Some(CampoObligatorio(Name(f)))
  {
  }

  /** What the field loop accepts: four non-blank strings and an amount that is there. */
  lemma {:induction false} FieldsAcceptedIff(d: PagoDatos)
    ensures FirstError(d, 0).None? <==>
              Texto(d.destinatario) && Texto(d.concepto) && Texto(d.descripcion)
              && MontoPresente(d.monto) && Texto(d.metodo)
  {
    FirstErrorNone(d);
    CampoErrorNone(d, Destinatario);
    CampoErrorNone(d, Concepto);
    CampoErrorNone(d, Descripcion);
    CampoErrorNone(d, Monto);
    CampoErrorNone(d, Metodo);
  }

  /** The first failing field names itself; the amount answers "Faltan campos requeridos". */
  lemma {:induction false} FirstFailureReported(d: PagoDatos)
    ensures !Texto(d.destinatario) ==> FirstError(d, 0) == Some(CampoObligatorio("destinatario"))
    ensures (Texto(d.destinatario) && !Texto(d.concepto))
              ==> FirstError(d, 0) == Some(CampoObligatorio("concepto"))
    ensures (Texto(d.destinatario) && Texto(d.concepto) && Texto(d.descripcion)
             && !MontoPresente(d.monto)) ==> FirstError(d, 0) == Some(FaltanCampos)
  {
    FirstErrorUnrolled(d);
    CampoErrorNone(d, Destinatario);
    CampoErrorNone(d, Concepto);
    CampoErrorNone(d, Descripcion);
    CampoErrorNone(d, Monto);
  }

  /** The loop over `campos_requeridos`, returning at the first field that fails. */
  method ValidarCampos(d: PagoDatos) returns (err: Option<string>)
    ensures err == FirstError(d, 0)
  {
    var k := 0;
    while k < |Requeridos|
      invariant 0 <= k <= |Requeridos|
      invariant FirstError(d, 0) == FirstError(d, k)
    {
      var e := CampoError(d, Requeridos[k]);
      if e.Some? {
        return e;
      }
      k := k + 1;
    }
    return None;
  }

  /** `float(data["monto"])` and the `monto <= 0` test, with their two messages. */
  function ValidarMonto(v: Value): (r: Result<real>)
    ensures r.Ok? <==> ToFloat(v).Some? && ToFloat(v).value > 0.0
    ensures r.Ok? ==> r.value == ToFloat(v).value
    ensures ToFloat(v).None? ==> r == Err(MontoNoValido)
    ensures ToFloat(v).Some? && ToFloat(v).value <= 0.0 ==> r == Err(MontoNoPositivo)
  {
    match ToFloat(v)
    case None => Err(MontoNoValido)
    case Some(x) => if x <= 0.0 then Err(MontoNoPositivo) else Ok(x)
  }

  /** The payment date: the given one unless it is unreadable or on a later day than
      today, or the current time when none is given. */
  function FechaPago(f: FechaInput, now: DateTime): (r: Result<DateTime>)
    ensures f.NoFecha? ==> r == Ok(now)
    ensures f.Unparseable? ==> r == Err(FormatoFecha)
    ensures f.Parsed? ==> (r.Ok? <==> !LaterDate(f.dt.date, now.date))
    ensures f.Parsed? && r.Ok? ==> r.value == f.dt
    ensures r.Err? ==> r.error in {FormatoFecha, FechaFutura}
    ensures f.Parsed? && LaterDate(f.dt.date, now.date) ==> r == Err(FechaFutura)
  {
    match f
    case NoFecha => Ok(now)
    case Unparseable => Err(FormatoFecha)
    case Parsed(dt) => if LaterDate(dt.date, now.date) then Err(FechaFutura) else Ok(dt)
  }

  /** `registrar_pago` up to the writes: fields, amount, date, then the payment whose id
      is the decimal string of one more than the number of payments. */
  function RegistrarPago(pagos: seq<Payment>, d: PagoDatos, now: DateTime): (r: Result<Payment>)
    ensures FirstError(d, 0).Some? ==> r == Err(FirstError(d, 0).value)
    ensures r.Ok? <==> FirstError(d, 0).None? && d.monto.Some?
                       && ValidarMonto(d.monto.value).Ok? && FechaPago(d.fecha, now).Ok?
    ensures r.Ok? ==> r.value.id == NatToString(|pagos| + 1)
                      && r.value.monto > 0.0 && !LaterDate(r.value.fecha.date, now.date)
    ensures FirstError(d, 0).None? && d.monto.Some? && ValidarMonto(d.monto.value).Err?
            ==> r == Err(ValidarMonto(d.monto.value).error)
    ensures FirstError(d, 0).None? && d.monto.Some? && ValidarMonto(d.monto.value).Ok?
              && FechaPago(d.fecha, now).Err?
            ==> r == Err(FechaPago(d.fecha, now).error)
  {
    match FirstError(d, 0)
    case Some(e) => Err(e)
    case None =>
      FieldsAcceptedIff(d);
      PagoAceptado(pagos, d, now)
  }

  /** The amount and date checks, run once every field has passed; all it needs is the
      four text fields as strings and an amount. */
  function PagoAceptado(pagos: seq<Payment>, d: PagoDatos, now: DateTime): (r: Result<Payment>)
    requires d.destinatario.Some? && d.destinatario.value.Str? && d.concepto.Some? && d.concepto.value.Str?
    requires d.descripcion.Some? && d.descripcion.value.Str? && d.metodo.Some? && d.metodo.value.Str?
    requires d.monto.Some?
    ensures r.Ok? <==> ValidarMonto(d.monto.value).Ok? && FechaPago(d.fecha, now).Ok?
    ensures r.Ok? ==> r.value.id == NatToString(|pagos| + 1)
                      && r.value.monto > 0.0 && !LaterDate(r.value.fecha.date, now.date)
    ensures ValidarMonto(d.monto.value).Err? ==> r == Err(ValidarMonto(d.monto.value).error)
    ensures ValidarMonto(d.monto.value).Ok? && FechaPago(d.fecha, now).Err?
            ==> r == Err(FechaPago(d.fecha, now).error)
  {
    match ValidarMonto(d.monto.value)
    case Err(e) => Err(e)
    case Ok(monto) =>
      match FechaPago(d.fecha, now)
      case Err(e) => Err(e)
      case Ok(fecha) => Ok(NuevoPago(NatToString(|pagos| + 1), d, monto, fecha))
  }

  /** The stored payment: the four text fields stripped. */
  function NuevoPago(id: string, d: PagoDatos, monto: real, fecha: DateTime): (p: Payment)
    requires d.destinatario.Some? && d.destinatario.value.Str? && d.concepto.Some? && d.concepto.value.Str?
    requires d.descripcion.Some? && d.descripcion.value.Str? && d.metodo.Some? && d.metodo.value.Str?
    ensures p.id == id && p.monto == monto && p.fecha == fecha
  {
    Payment(id, fecha, Strip(d.destinatario.value.s), Strip(d.concepto.value.s),
            Strip(d.descripcion.value.s), monto, Strip(d.metodo.value.s))
  }

  /** A registered payment carries the stripped texts of a request whose fields all passed,
      the amount `float` made of it and the date the date check settled on. */
  lemma RegisteredPaymentFields(pagos: seq<Payment>, d: PagoDatos, now: DateTime)
    requires RegistrarPago(pagos, d, now).Ok?
    ensures Texto(d.destinatario) && Texto(d.concepto) && Texto(d.descripcion)
            && Texto(d.metodo) && d.monto.Some?
    ensures var p := RegistrarPago(pagos, d, now).value;
            && ValidarMonto(d.monto.value) == Ok(p.monto)
            && FechaPago(d.fecha, now) == Ok(p.fecha)
            && p.destinatario == Strip(d.destinatario.value.s)
            && p.concepto == Strip(d.concepto.value.s)
            && p.descripcion == Strip(d.descripcion.value.s)
            && p.metodo == Strip(d.metodo.value.s)
  {
    FieldsAcceptedIff(d);
  }

  /** The expense that mirrors a payment in the ledger. */
  function EgresoDePago(p: Payment): (m: Movement)
    ensures m.id == p.id && m.tipo == Egreso && m.monto == p.monto && m.fecha == p.fecha
    ensures m.descripcion == Str(p.descripcion) && m.facturaId.None?
    ensures m.detalles.Some? && m.detalles.value.Keys == {"destinatario", "concepto", "metodo"}
    ensures m.detalles.value["destinatario"] == Str(p.destinatario)
            && m.detalles.value["concepto"] == Str(p.concepto)
            && m.detalles.value["metodo"] == Str(p.metodo)
  {
    Movement(p.id, Egreso, p.monto, Str(p.descripcion), p.fecha,
             Some(map["destinatario" := Str(p.destinatario), "concepto" := Str(p.concepto),
                      "metodo" := Str(p.metodo)]),
             None)
  }

  /** Ids "1", "2", … in order: what a list built by registrations alone looks like. */
  predicate CountedIds(pagos: seq<Payment>) {
    forall i | 0 <= i < |pagos| :: pagos[i].id == NatToString(i + 1)
  }

  /** While payments are only ever added, each new id is fresh and the ids stay counted. */
  lemma NewPaymentIdFresh(pagos: seq<Payment>, d: PagoDatos, now: DateTime)
    requires CountedIds(pagos)
    requires RegistrarPago(pagos, d, now).Ok?
    ensures forall p | p in pagos :: p.id != RegistrarPago(pagos, d, now).value.id
    ensures CountedIds(pagos + [RegistrarPago(pagos, d, now).value])
  {
    var n := RegistrarPago(pagos, d, now).value;
    AppendCounted(pagos, n);
  }

  lemma AppendCounted(pagos: seq<Payment>, n: Payment)
    requires CountedIds(pagos) && n.id == NatToString(|pagos| + 1)
    ensures forall p | p in pagos :: p.id != n.id
    ensures CountedIds(pagos + [n])
  {
    forall i | 0 <= i < |pagos| ensures pagos[i].id != n.id {
      NatToStringInjective(i + 1, |pagos| + 1);
    }
    var qs := pagos + [n];
    forall i | 0 <= i < |qs| ensures qs[i].id == NatToString(i + 1) {
      if i < |pagos| {
        assert qs[i] == pagos[i];
      } else {
        assert qs[i] == n && i + 1 == |pagos| + 1;
      }
    }
  }
}

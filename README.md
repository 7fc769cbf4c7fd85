# Caja Plus back office — a verified Dafny model

Caja Plus is a small point-of-sale back office written in Python with Flask. Each
controller loads a whole JSON file, changes it and writes it back. The files are:

- the cash ledger (`caja`): a balance and a list of income and expense movements;
- the product catalogue;
- the sales;
- the payments;
- the invoices;
- the user accounts.

This project models those controllers in Dafny:

- `Tienda.Store` is a class with one field per file and one method per endpoint that
  writes files.
- The validation, pricing, numbering, search, pagination and aggregation logic consists
  of functions on values.
- Loops in the source are methods with loop invariants: the required-field loop of a
  payment, the pricing and stock loops of a sale, the invoice back-link loop, the index
  loops of the sale and user updates, and the accumulation loops of the metrics. Each is
  proved equal to its specification function.

The cross-entity invariant the endpoints keep is `Tienda.Coherent`:

- the balance equals Σ income − Σ expenses of the ledger;
- every product has a non-blank name, a positive price and a stock that is not negative;
- no two users share an id;
- payment ids are "1", "2", … in order.

Every `Store` method keeps it (`old(Consistent()) ==> Consistent()`). Every rejected
request leaves the store unchanged.

Files:

- `common.dfy`: optional values, JSON scalars with Python truthiness, `strip`/`lower`/`in`,
  decimal rendering and parsing, filtering, and page arithmetic.
- `calendar.dfy`: proleptic Gregorian dates, ordinals, weekdays and week labels.
- `caja.dfy`, `productos.dfy`, `usuarios.dfy`, `ventas.dfy`, `pagos.dfy`, `facturas.dfy`
  and `metricas.dfy`: one module per controller.
- `tienda.dfy`: the store.

The clock (`datetime.now()`) and the id generator (`uuid.uuid4()`) become parameters
(`now`, `id`). Amounts are exact `real`s.

## Notable behaviours of the code

- **Sale totals are not rounded.** `registrar_venta` sums quantity × unit price and stores
  the sum as it is (controllers/ventas_controller.py:75). `Ventas.SaleTotal` is that exact
  sum.
- **A non-list `items` has its own error.** A missing or non-list `items` is answered
  "Datos inválidos". Only an empty list gets "No se puede registrar una venta sin items"
  (controllers/ventas_controller.py:49-54).
- **An invoice request checks its fields before the sale.** A missing or falsy `venta_id`
  or `cliente` is answered 400 before the sale is looked up
  (controllers/facturas_controller.py:184-185). An unknown sale gives 404 after that
  (controllers/facturas_controller.py:187-191).

## Model

| member | source | states |
|---|---|---|
| Caja.EmptyLedgerReconciled | controllers/caja_controller.py:38-41 | the ledger a missing file starts with (balance 0, no movements) is reconciled |
| Tienda.Store.constructor | controllers/caja_controller.py:38-41 | a store whose files are all missing has no records and balance 0, and is coherent |
| Caja.AppendKeepsReconciled | controllers/caja_controller.py:129-130 | appending a movement and applying its effect to the balance keeps balance = Σ income − Σ expenses |
| Caja.SameAmountsSameSums | controllers/caja_controller.py:129-130 | histories that agree in kind and amount, entry by entry, have the same sums |
| Caja.ParseMonto | controllers/caja_controller.py:120-125 | `float(total)` and the `monto <= 0` test: a positive amount exactly when the value converts to a positive number |
| Caja.ValidateIngreso | controllers/caja_controller.py:117-125 | accepted iff both keys are present (with any value) and the amount is positive, and the result is that amount; a missing key gives "Datos inválidos", and with both keys present an amount that fails `float()` or is not positive gives "Monto inválido" |
| Caja.ValidateEgreso | controllers/caja_controller.py:155-163 | accepted iff `descripcion` and `total` are present and truthy (Python truthiness of any JSON value) and the amount is positive; a missing or falsy key gives "Datos inválidos", and otherwise a bad or non-positive amount gives "Monto inválido" |
| Caja.IngresoDescriptionsOfText | controllers/caja_controller.py:133 | the income description is "Venta #" followed by `str()` of the value sent: the text itself, `None` for JSON null, `True` for true |
| Caja.IngresoDescriptionsOfNumbers | controllers/caja_controller.py:133 | for numbers the description carries their decimal text: `42`, `-7`, and `3.0` for an integral float |
| Caja.Detalles | controllers/caja_controller.py:176 | the details map holds exactly the keys among destinatario, concepto and metodo that the body carries, with their values |
| Caja.EgresoMovement | controllers/caja_controller.py:167-178 | the expense movement has the amount, id and time, stores the sent `descripcion` value as it is, has no invoice link, and carries `detalles` iff at least one detail key was sent, equal to that map |
| Tienda.Store.RegistrarIngreso | controllers/caja_controller.py:105-139 | on a bad body: 400 with its message and nothing changes; otherwise the balance rises by exactly the amount, one income movement described "Venta #" + str(descripcion) is appended, and coherence is kept |
| Tienda.Store.RegistrarEgreso | controllers/caja_controller.py:141-184 | on a bad body: 400 and nothing changes; otherwise the balance falls by exactly the amount (it may go negative), one expense movement is appended, and coherence is kept |
| Tienda.IncomeThenExpense | controllers/caja_controller.py:58-184 | on a new store, income 100 then expense 150 leaves balance −50 and two movements, and the movement query lists the later expense first |
| Tienda.LaterFirst | controllers/caja_controller.py:69-93 | the movement query over two movements with default arguments lists the later one first |
| Tienda.SortPair | controllers/caja_controller.py:69-73 | sorting newest first puts the later of two movements first |
| Caja.InsertPermutes | controllers/caja_controller.py:69-73 | one insertion step of the sort keeps the multiset of movements |
| Caja.InsertSorted | controllers/caja_controller.py:69-73 | inserting into a newest-first list keeps it newest first |
| Caja.SortNewestFirst | controllers/caja_controller.py:69-73 | `sort(key=fecha, reverse=True)`: the result is a permutation of the movements and no entry is older than one after it |
| Caja.SortIsStable | controllers/caja_controller.py:69-73 | the sort is stable: movements with equal timestamps keep their relative order |
| Caja.ObtenerCaja | controllers/caja_controller.py:58-103 | the answer carries the balance, the page arguments after the 1/10 fallback, the filtered count, ⌈total/per_page⌉, and the requested page of the sorted and filtered list |
| Caja.ObtenerCajaPage | controllers/caja_controller.py:69-93 | the returned page is newest first and holds only ledger movements; with "ingreso" or "egreso" only movements of that type, and with any other `tipo` the total counts every movement |
| Caja.PageOfNewestFirst | controllers/caja_controller.py:90-93 | a page of a newest-first list is newest first and made of the list's entries |
| Caja.FilterTipoSubset | controllers/caja_controller.py:78-80 | the type filter keeps only movements of the list, and of the requested type when one applies |
| Caja.FilterKeepsOrder | controllers/caja_controller.py:78-80 | filtering a newest-first list by type keeps it newest first |
| Caja.FilterTipoPreservesCount | controllers/caja_controller.py:78-90 | sorting before filtering does not change the reported `total` |
| Caja.SortPreservesKindCount | controllers/caja_controller.py:69-80 | sorting keeps the number of movements of each kind |
| Common.PagingArgs | controllers/caja_controller.py:83-88 | both arguments absent give (1, 10); when each sent argument is an integer literal, the pair is exactly those integers (absent ones defaulting to 1 and 10); a malformed one makes both fall back to (1, 10) |
| Common.ParseIntRoundTrip | controllers/caja_controller.py:84-85 | `int(str(n)) == n` for every natural number |
| Common.ParseDecimalRoundTrip | controllers/caja_controller.py:121 | `float(str(n)) == n` for every natural number |
| Common.Page | controllers/caja_controller.py:90-93 | `xs[(page-1)*per_page : page*per_page]`: at most per_page entries taken in order from that offset, empty exactly when the offset is past the end, and full except on the last page |
| Common.PageIsSlice | controllers/caja_controller.py:90-93 | a page is one contiguous slice of the list |
| Common.PageWithin | controllers/productos_controller.py:59-62 | every entry of a page is an entry of the list |
| Common.TotalPages | controllers/caja_controller.py:102 | `(total + per_page - 1) // per_page` is ⌈total/per_page⌉: enough pages for all entries, none of them empty, and 0 exactly when there are no entries |
| Common.PagesPartition | controllers/caja_controller.py:90-102 | pages 1 … total_pages, concatenated, give back the whole list: every entry is on exactly one page, in order |
| Common.Filter | controllers/caja_controller.py:80 | a list comprehension with a condition: no longer than the list, every kept entry passes, and the list is kept whole iff every entry passes |
| Common.FilterSubset | controllers/caja_controller.py:80 | the comprehension keeps only entries of the list |
| Common.FilterComplete | controllers/caja_controller.py:80 | the comprehension keeps every entry that passes |
| Common.FilterAppend | controllers/caja_controller.py:80 | filtering a concatenation is concatenating the filtered parts |
| Common.FirstIndex | controllers/ventas_controller.py:63 | `next(x for x in xs if p(x))` as a position: none iff no entry passes, otherwise the first entry that passes |
| Common.Strip | controllers/usuarios_controllers.py:62-64 | `strip()`: the slice that neither starts nor ends with whitespace, everything cut off being whitespace |
| Common.StripTrimmed | controllers/usuarios_controllers.py:62-64 | a string that neither starts nor ends with whitespace is its own strip |
| Common.StripIdempotent | controllers/usuarios_controllers.py:62-64 | stripping twice is stripping once |
| Common.StripNoSpace | controllers/usuarios_controllers.py:62-64 | a string without whitespace is its own strip |
| Common.Lower | controllers/productos_controller.py:44 | `lower()`: same length, each character lowered |
| Common.LowerIdempotent | controllers/usuarios_controllers.py:62-63 | lowering twice is lowering once |
| Common.NatToString | controllers/pagos_controller.py:127 | `str(n)`: a non-empty digit string denoting n, with no leading zero unless n is 0 |
| Common.NatToStringInjective | controllers/pagos_controller.py:127 | two naturals render alike iff they are equal |
| Common.IntToStringInjective | controllers/ventas_controller.py:63 | two integers render alike iff they are equal |
| Common.ZFill | controllers/facturas_controller.py:82 | `zfill(w)` has length max(len, w) |
| Common.ZFillValue | controllers/facturas_controller.py:82 | a zero-filled number is still a digit string denoting that number |
| Calendar.ToOrdinal | controllers/metricas_controller.py:33 | `date.toordinal()` is at least 1 |
| Calendar.FromOrdinal | controllers/metricas_controller.py:33-34 | `date.fromordinal(n)` is the date whose ordinal is n, so day arithmetic can go through ordinals |
| Calendar.Weekday | controllers/metricas_controller.py:33 | `weekday()` lies in 0 … 6 |
| Calendar.WeekOf | controllers/metricas_controller.py:33-34 | the week's start is a Monday on or before the date and less than 7 days before it, and the end is six days after the start |
| Calendar.SameWeek | controllers/metricas_controller.py:33-34 | every date from a week's Monday to its Sunday has that same week |
| Calendar.SameWeekSameLabel | controllers/metricas_controller.py:33-37 | every date from a week's Monday to its Sunday gets the same `semana_label`, so a weekly bucket is a Monday-to-Sunday week |
| Productos.Search | controllers/productos_controller.py:44-49 | keeps exactly the products whose lowered name or description contains the stripped, lowered term, in the catalogue's order and with their multiplicity (exactly the comprehension); an empty term keeps the list as it is |
| Productos.ObtenerProductos | controllers/productos_controller.py:33-70 | the answer carries the searched page, the page arguments after the 1/10 fallback, the search count and ⌈total/per_page⌉; every product shown is a stored product matching the term |
| Productos.RegistrarProducto | controllers/productos_controller.py:82-122 | checks in order (missing field, blank name, non-positive or non-number price, non-integer or negative stock), each with its message; on success, a sellable product with id len+1, the stripped name and the defaults "" and "Sin categoría" |
| Tienda.Store.RegistrarProducto | controllers/productos_controller.py:82-122 | a rejected body answers 400 and changes nothing; an accepted one appends exactly that product and keeps coherence |
| Productos.NewIdFreshWhileDense | controllers/productos_controller.py:107-108 | while ids are 1 … len, the new id len+1 is fresh and the ids stay dense |
| Productos.NewIdCanRepeatAfterDelete | controllers/productos_controller.py:107-108 | after deleting product 1 of products 1 and 2, the next registration reuses id 2 |
| Productos.EliminarProducto | controllers/productos_controller.py:124-141 | "not found" iff no product has the id; otherwise the result is exactly the list comprehension keeping the products without that id, in order and with their multiplicity |
| Tienda.Store.EliminarProducto | controllers/productos_controller.py:124-141 | 404 with nothing changed, or 200 with the filtered list stored; coherence is kept |
| Productos.ValidarEdicion | controllers/productos_controller.py:156-164 | an edit is accepted iff every field the body carries passes its check; the first failing check in the order name, price, stock gives the answer, with its message |
| Productos.Editado | controllers/productos_controller.py:167-171 | the edited product keeps its id; each field the body carries takes the sent value, and every other field keeps its old value |
| Productos.EditKeepsSellable | controllers/productos_controller.py:167-171 | an accepted edit keeps the id and every field the body leaves out, and keeps the product sellable |
| Productos.EmptyEditIsIdentity | controllers/productos_controller.py:167-171 | an empty body changes nothing |
| Tienda.ProductIndex | controllers/productos_controller.py:151 | the product the edit picks is the first with the id, and there is none iff no product has it |
| Tienda.Store.EditarProducto | controllers/productos_controller.py:143-175 | 404 for an unknown id and 400 for a bad field, both with nothing changed; otherwise only the first product with the id is patched, and coherence is kept |
| Tienda.EditKeepsCoherent | controllers/productos_controller.py:167-171 | an accepted edit of one product keeps the store coherent |
| Tienda.ProductsKeepCoherent | controllers/productos_controller.py:116-138 | replacing the catalogue by stored or sellable products keeps the store coherent |
| Usuarios.MaxId | controllers/usuarios_controllers.py:78 | `max(ids, default=0)`: no id above it, 0 for no users, and otherwise the id of some user |
| Usuarios.RegistrarUsuario | controllers/usuarios_controllers.py:48-95 | accepted iff the normalised name, email and password are non-empty, the email has '@' and no user has it; each failure has its own message, a taken email giving "El email ya está registrado"; the new user has id max+1 (above every id), the normalised fields and no role |
| Tienda.Store.RegistrarUsuario | controllers/usuarios_controllers.py:48-95 | 400 with nothing changed, or exactly the new user appended; coherence is kept |
| Usuarios.RegistrationKeepsUnique | controllers/usuarios_controllers.py:75-89 | registration keeps user ids unique, and emails unique when they were |
| Usuarios.ObtenerUsuarios | controllers/usuarios_controllers.py:97-108 | same length and order as the store, each entry with the user's id, name and email and no password |
| Usuarios.Actualizado | controllers/usuarios_controllers.py:125-127 | the updated user keeps id and role; each field is the sent or the old value, stripped (and lowered for name and email) |
| Tienda.UserIndex | controllers/usuarios_controllers.py:123-124 | the user the update picks is the first with the id, and there is none iff no user has it |
| Tienda.Store.ActualizarUsuario | controllers/usuarios_controllers.py:110-135 | 404 with nothing changed, or only the first user with the id is updated; coherence is kept |
| Usuarios.UpdateKeepsUniqueIds | controllers/usuarios_controllers.py:123-128 | an update keeps user ids unique |
| Tienda.UserUpdateKeepsCoherent | controllers/usuarios_controllers.py:123-128 | updating one user keeps the store coherent |
| Usuarios.EmptyUpdateIdempotent | controllers/usuarios_controllers.py:125-127 | an update with an empty body, applied twice, gives what one gives |
| Usuarios.NormalIdempotent | controllers/usuarios_controllers.py:62-63 | `strip().lower()` applied twice gives what it gives once |
| Usuarios.UpdateCanDuplicateEmail | controllers/usuarios_controllers.py:123-128 | an update does not re-check emails: two users can end up with one email |
| Usuarios.EliminarUsuario | controllers/usuarios_controllers.py:137-154 | "not found" iff no user has the id; otherwise the result is exactly the list comprehension keeping the users without that id, in order and with their multiplicity |
| Usuarios.DeleteKeepsUnique | controllers/usuarios_controllers.py:148 | deleting keeps user ids unique, and emails unique when they were |
| Tienda.Store.EliminarUsuario | controllers/usuarios_controllers.py:137-154 | 404 with nothing changed, or the filtered list stored; coherence is kept |
| Usuarios.Login | controllers/usuarios_controllers.py:156-190 | 400 for an empty field or an email without '@'; otherwise logged in iff some user holds the normalised email and the stripped password, as the first such user with role defaulting to "admin", else 401 |
| Usuarios.RegisteredUserCanLogIn | controllers/usuarios_controllers.py:62-190 | a user just registered logs in with the same email and password and is shown with role "admin" |
| Ventas.IdMatchesIsStrEquality | controllers/ventas_controller.py:63 | the id match is `str(p["id"]) == str(item["id"])` for integer and string item ids |
| Ventas.FindProduct | controllers/ventas_controller.py:63 | none iff no product matches the item id, otherwise the first match |
| Ventas.DetailItems | controllers/ventas_controller.py:62-72 | priced iff every item matches a product, with one line per item built from the catalogue; otherwise the id of the first unmatched item |
| Ventas.Detallar | controllers/ventas_controller.py:62-72 | the pricing loop, leaving at the first unknown item, computes `DetailItems` |
| Ventas.TotalUsesCatalogPrices | controllers/ventas_controller.py:63-75 | the sale total is Σ quantity × catalogue price over the cart |
| Ventas.SaleNumbersAdvance | controllers/ventas_controller.py:98 | each income movement raises the count behind "Venta #n" by one |
| Tienda.SaleCredit | controllers/ventas_controller.py:98-106 | the ledger credit has the sale's id, date and total, kind income, and description "Venta #" + (income count + 1) |
| Ventas.DescontarStock | controllers/ventas_controller.py:114-117 | the stock loop computes `ApplyStock`, one line after the other |
| Ventas.ApplyLineEffect | controllers/ventas_controller.py:115-117 | one line sets the first matching product's stock to max(0, stock − cantidad) and changes nothing else |
| Ventas.ApplyStockKeepsSellable | controllers/ventas_controller.py:114-117 | after the stock loop no stock is negative and every catalogue field is unchanged |
| Ventas.ApplyStockUntouched | controllers/ventas_controller.py:114-117 | a product no line names keeps its stock |
| Ventas.ApplyStockKeepsIds | controllers/ventas_controller.py:114-117 | the stock loop keeps every product id |
| Tienda.Store.RegistrarVenta | controllers/ventas_controller.py:45-123 | 400 for a non-list or empty cart and 404 for an unknown product, each with nothing changed; otherwise one sale with the exact total, balance + total, one credit with the sale's id, and stock lowered with a floor at zero; coherence is kept |
| Tienda.Store.AsentarVenta | controllers/ventas_controller.py:82-120 | the writes of a priced sale: the sale, its ledger credit, and the stock loop; coherence is kept |
| Tienda.SaleKeepsCoherent | controllers/ventas_controller.py:109-117 | a sale credit plus the stock loop keeps the store coherent |
| Tienda.Store.ActualizarVenta | controllers/ventas_controller.py:133-148 | 400 without both keys and 404 for an unknown id, each with nothing changed; otherwise the first sale with the id gets the items and total as sent, and the ledger and stock are untouched |
| Ventas.EliminarVenta | controllers/ventas_controller.py:152-163 | "not found" iff no sale has the id; otherwise the result is exactly the list comprehension keeping the sales without that id, in order and with their multiplicity |
| Tienda.Store.EliminarVenta | controllers/ventas_controller.py:152-163 | 404 with nothing changed, or the filtered sales stored with the ledger and stock untouched |
| Pagos.FirstErrorUnrolled | controllers/pagos_controller.py:77-84 | the field loop answers with the first failing field in the order destinatario, concepto, descripcion, monto, metodo |
| Pagos.CampoErrorNone | controllers/pagos_controller.py:78-84 | a field passes iff it is a non-blank string, or for the amount iff it is present and not a blank string; each failure has its message |
| Pagos.FieldsAcceptedIff | controllers/pagos_controller.py:77-84 | the loop finds nothing iff the four text fields are non-blank strings and the amount is present |
| Pagos.FirstFailureReported | controllers/pagos_controller.py:77-84 | a bad destinatario or concepto names itself, and a missing amount after good text fields answers "Faltan campos requeridos" |
| Pagos.ValidarCampos | controllers/pagos_controller.py:77-84 | the loop over `campos_requeridos`, returning at the first failure, computes the first error |
| Pagos.ValidarMonto | controllers/pagos_controller.py:87-92 | accepted iff `float()` succeeds with a positive value, and the result is that value; otherwise "El monto no es válido" or "El monto debe ser mayor a cero" |
| Pagos.FechaPago | controllers/pagos_controller.py:95-122 | no date gives now; an unreadable one gives the format error; a parsed one is kept iff its day is not after today, and one on a later day gives "No se permiten fechas futuras" |
| Pagos.RegistrarPago | controllers/pagos_controller.py:59-137 | a field error is reported first; once the fields pass, an amount failure gives ValidarMonto's message and then a date failure gives FechaPago's; accepted iff fields, amount and date pass; the payment id is str(count + 1), its amount is positive and its date is not in the future |
| Pagos.PagoAceptado | controllers/pagos_controller.py:87-137 | after the field checks: an amount failure gives ValidarMonto's message, then a date failure FechaPago's; accepted iff amount and date pass, with the same id, amount and date guarantees |
| Pagos.NuevoPago | controllers/pagos_controller.py:125-134 | the stored payment has the given id, amount and date |
| Pagos.RegisteredPaymentFields | controllers/pagos_controller.py:125-134 | a registered payment holds the stripped text fields, the parsed amount and the settled date |
| Pagos.EgresoDePago | controllers/pagos_controller.py:139-152 | the mirroring expense has the payment's id, amount, date and description, with details holding exactly destinatario, concepto and metodo |
| Pagos.NewPaymentIdFresh | controllers/pagos_controller.py:125-136 | while payment ids are "1" … "n", the new id is fresh and the ids stay counted |
| Pagos.AppendCounted | controllers/pagos_controller.py:127-135 | appending a payment with id str(n + 1) keeps the ids counted and fresh |
| Tienda.PaymentKeepsCoherent | controllers/pagos_controller.py:135-155 | a payment and its expense keep the store coherent |
| Tienda.Store.RegistrarPago | controllers/pagos_controller.py:59-158 | 400 with nothing changed on any failed check; otherwise exactly one payment and one expense movement with the same id are appended and the balance drops by the amount; coherence is kept |
| Facturas.InvoiceNumber | controllers/facturas_controller.py:82 | "FAC-" + year-month + "-" + `str(n).zfill(3)`: exactly max(3, len(str(n))) digits after the prefix, denoting n |
| Facturas.InvoiceNumberInjective | controllers/facturas_controller.py:82 | two positions of one month give the same number iff they are equal |
| Facturas.GenerarIdFactura | controllers/facturas_controller.py:67-82 | the new id starts with the month's prefix, and its digits, exactly max(3, len(str(n))) of them, denote n = 1 + the number of invoices already carrying that prefix |
| Facturas.NextNumberFresh | controllers/facturas_controller.py:80-82 | in a month numbered 1, 2, …, the next number is not taken |
| Facturas.NextNumberAppended | controllers/facturas_controller.py:80-82 | appending the next number keeps the month numbered |
| Facturas.IssuedIdIsNext | controllers/facturas_controller.py:67-82 | while invoices come only from this function, the new id is the month's next number, differs from every issued id, and the month stays numbered |
| Facturas.IssueKeepsOtherMonths | controllers/facturas_controller.py:80-82 | issuing leaves every other month's invoices and numbering unchanged |
| Facturas.ForeignNumberRepeats | controllers/facturas_controller.py:80-82 | after an invoice numbered 2 from elsewhere, the next id repeats it, so uniqueness needs the assumption above |
| Facturas.FindSale | controllers/facturas_controller.py:188 | none iff no sale has the requested id, otherwise the first sale with it |
| Facturas.NuevaFactura | controllers/facturas_controller.py:181-204 | 400 iff `venta_id` or `cliente` is missing or falsy; otherwise "Venta no encontrada" iff no sale has the id, and success iff both are given and the sale exists; the invoice copies the sale's id, items and total beside the client, with `precio_unitario` 0 and the generated id |
| Facturas.SaleInvoicedTwice | controllers/facturas_controller.py:193-207 | there is no duplicate guard: whatever invoices the list already holds, invoicing the same sale twice in a month succeeds with two different ids |
| Facturas.FirstMovement | controllers/facturas_controller.py:212-213 | none iff no movement has the id, otherwise the first movement with it |
| Facturas.BackLinkChangesOnlyFirst | controllers/facturas_controller.py:211-216 | the back-link sets the invoice id on the first movement with the sale's id and changes nothing else; with none it is a no-op |
| Facturas.BackLinkKeepsReconciled | controllers/facturas_controller.py:211-216 | the back-link keeps the balance reconciled |
| Facturas.VincularMovimiento | controllers/facturas_controller.py:212-215 | the for/break loop computes the back-linked ledger |
| Tienda.Store.GenerarFactura | controllers/facturas_controller.py:170-227 | 400 or 404 with nothing changed, and success exactly when both fields are given and the sale exists; then exactly one invoice is appended and the ledger gets the back-link; coherence is kept |
| Metricas.IndexOf | controllers/metricas_controller.py:94-108 | the bucket of a key: none iff no bucket has it, otherwise the first |
| Metricas.AddStep | controllers/metricas_controller.py:94-108 | `d[key] += step` keeps keys distinct and in place, grows the key's bucket by the step, and appends a bucket iff the key is new |
| Metricas.AddSums | controllers/metricas_controller.py:94-108 | one step adds its count and its amount to the bucket totals |
| Metricas.TalliedDistinct | controllers/metricas_controller.py:67-82 | a `defaultdict` built by steps has distinct keys |
| Metricas.TalliedKeys | controllers/metricas_controller.py:94-108 | a key has a bucket iff some step used it |
| Metricas.TalliedBuckets | controllers/metricas_controller.py:94-108 | each bucket holds the sum of the steps made under its key |
| Metricas.TalliedTotals | controllers/metricas_controller.py:94-108 | the buckets add up to the sum of all steps |
| Metricas.BestIndex | controllers/metricas_controller.py:125 | the position `max(..., key=cantidad)` returns: a largest count, and the first of them |
| Metricas.MasVendido | controllers/metricas_controller.py:125 | ("Ninguno", 0) with no items; otherwise a name with the largest quantity, the first such in insertion order |
| Metricas.SaleEntriesSums | controllers/metricas_controller.py:94-101 | each sale adds one to its bucket's count and its total to the bucket's income |
| Metricas.ExpenseEntriesSums | controllers/metricas_controller.py:119-122 | each expense adds its amount to its bucket |
| Metricas.ExpenseSumIsLedgerSum | controllers/metricas_controller.py:56-64 | `total_egresos` is the ledger's Σ of expense amounts |
| Metricas.TotalsMeaning | controllers/metricas_controller.py:56-64 | `total_ventas` is the number of sales, `total_ingresos` Σ sale totals, `total_pagos` the number of expenses, and `total_egresos` their Σ; with a reconciled ledger the balance is ledger income − `total_egresos` |
| Metricas.BucketsAddUp | controllers/metricas_controller.py:94-108 | for every granularity, bucket counts add up to `total_ventas`, bucket income to `total_ingresos`, and bucket expenses to `total_egresos`; quantities per product add up to `total_items` |
| Metricas.BestSellerMeaning | controllers/metricas_controller.py:125 | with no items the best seller is ("Ninguno", 0); otherwise it is a sold name whose reported quantity is its total, and no name sold more |
| Metricas.ContarItems | controllers/metricas_controller.py:104-108 | the inner loop over a sale's lines adds them to the product counter and to `total_items` |
| Metricas.ObtenerMetricas | controllers/metricas_controller.py:39-158 | the loops over sales and expenses compute exactly the specified metrics: totals, every bucket and the best seller |

## Left out

- File persistence. `cargar_*` and `guardar_*` are reads and writes of `Store` fields.
  Whole-file overwrites by concurrent requests (last writer wins) are not modelled.
- Flask. `request.get_json`, `jsonify`, the blueprints, and the response payloads beyond
  status and message are left out. The read-only endpoints (`obtener_caja`,
  `obtener_productos`, `obtener_usuarios`, `obtener_ventas`, `obtener_pagos`,
  `obtener_metricas`) are functions or a method over the store's fields.
- A body that is not a JSON object, or is `null`. Where the code then raises (for example
  `campo not in data` on `None`), the answer would be a 500 error; this is not modelled.
- The clock and `uuid.uuid4()` become parameters. Nothing requires generated ids to be
  fresh.
- Date parsing. `fromisoformat`/`strptime` in `registrar_pago`, and the `[:10]` parse of
  stored dates in `obtener_metricas`, are not modelled. A payment date arrives already
  parsed (`Pagos.FechaInput`), and stored timestamps are already `Calendar` date-time values.
- PDF rendering (`generar_pdf_factura`, `descargar_pdf`), the price calculator
  (controllers/calculadora_controller.py), database/database.py and the test fixtures are
  not part of this model.
- Page arguments below 1 or `per_page` = 0 (negative slicing, ZeroDivisionError).
  `Caja.ObtenerCaja` and `Productos.ObtenerProductos` require `PagingOk`.
- Caja.SortNewestFirst: modelled as a function on values rather than an in-place sort.
  The `except Exception: pass` fallback is not modelled, because stored timestamps are
  well-formed.
- Common.ToFloat: parses only plain decimal numerals. Python's `float()` also accepts
  exponents, `inf`, `nan` and underscores.
- Common.Strip: strips the ASCII whitespace and U+001C to U+001F. The other Unicode
  whitespace Python also removes (U+0085, U+00A0, U+2000 and the like) is not modelled.
- Common.ParseInt: accepts an optional sign and decimal digits around surrounding
  whitespace. Python's `int()` also accepts underscores between digits (`1_000`) and
  non-ASCII digits; these are not modelled.
- Common.PyStr: `str()` of a float with a fractional part, of a float of magnitude 10^16 or
  more (Python writes an exponent), and of a JSON list or object is not modelled. These
  render as the empty string. `Caja.IngresoMovement` therefore pins down the income
  description only for text, integers, booleans, `null` and integral floats.
- Productos.RegistrarProducto: `descripcion` and `categoria` are taken as text. The code
  stores whatever JSON value is sent; a non-text description would later make the search's
  `lower()` raise. This is not modelled.
- Productos.Editado: the same holds for an edited `descripcion` or `categoria`.
- Usuarios.RegistrarUsuario: `nombre`, `email` and `contrasena` are taken as text
  (`Usuarios.UsuarioDatos`). The code calls `.strip()` on whatever JSON value is sent
  (controllers/usuarios_controllers.py:62-64), so a number, a boolean or `null` there raises
  and the answer is a 500 error. This is not modelled.
- Usuarios.Actualizado: the same holds for the fields of an update
  (controllers/usuarios_controllers.py:125-127); a non-text value would raise, answered 500.
- Usuarios.Login: the same holds for `email` and `contrasena`
  (controllers/usuarios_controllers.py:170-171); a non-text value would raise, answered 500.
- Common.Lower: lowers only ASCII letters.
- Floating-point rounding. Amounts are exact reals.
- Ventas.DetailItems: an item without `id` or `cantidad` (a KeyError, answered 500) is not
  modelled. A non-integer `cantidad` is not modelled either; quantities are integers.
- Tienda.Store.ActualizarVenta: the new items and total are stored as priced lines and a
  real. Arbitrary JSON sent in their place is not modelled.
- Metricas.ObtenerMetricas: stored sales and movements always carry `total`, `monto`,
  `items`, `cantidad` and `nombre`. The `.get` defaults (0, [], "Desconocido") are not
  modelled.
- Calendar.FromOrdinal: dates are not bounded above. Python's `date` stops at year 9999,
  and `fromordinal` raises beyond it; this is not modelled.
- Calendar.MonthKey: years below 1000 are padded to four digits. Python's `%Y` on some
  platforms does not pad them.

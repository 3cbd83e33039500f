# Bookstore cart, checkout and inventory — a Dafny model

This project models the part of the bookstore web application (`app_Libreria`) that changes its data:

- the customer's shopping cart: adding a book, setting or deleting a quantity, removing a row, emptying the cart;
- the checkout, which turns the cart into a completed sale with one line item per row, lowers the stock and empties the cart;
- the administrator's sale form, which records a sale with its own line items and lowers stock;
- the cancellation of a sale, which puts its copies back into stock;
- the read-only totals the cart page and the administrator's book list show, and the in-stock / out-of-stock book listing.

It also models the model-level helpers those handlers call: `Venta.calcular_cambio`, `DetalleVenta.save`, `Carrito.subtotal` and `Libro.disponible`.

Layout, one module per file:

- `modelos.dfy` (`Modelos`) holds the records.
  - A book (`Libro`: price and stock) and a cart row (`Carrito`) are values.
  - A sale (`Venta`) and a sale line item (`DetalleVenta`) are classes, because the source assigns their fields in place (`calcular_cambio`, `save`, the cancellation's state change).
- `inventario.dfy` (`Inventario`) is the stock arithmetic.
  - A stock movement is a sequence of `Linea(libro, cantidad)`.
  - `Descontar` and `Reponer` fold such a sequence over the catalogue one write at a time, the way the handlers' loops do.
  - It also holds the money sums: `Importe` is the cart subtotal, `ConIva` adds the 16% tax, `ValorInventario` is price times stock.
  - The lemmas cover undoing a sale, keeping stock non-negative, and keeping the totals balanced.
- `carritos.dfy` (`Carritos`) is the cart table's integrity.
  - It requires unique row ids and at most one row per (user, book).
  - Each cart edit has a lemma showing it keeps that integrity.
  - `Filtrar` selects one user's rows, or everyone else's.
- `vistas.dfy` (`Vistas`) holds the request handlers, as methods of class `Libreria`.
  - `Libreria` stores the catalogue (`libros`), the cart table (`carrito`) with its next row id, and the sales (`ventas`).
  - Each handler method states its whole new state.
  - Each handler also states its outcome, separately for every branch the source takes.

Money is Python `Decimal` in the source and exact `real` here, so `0.16 × subtotal` has no rounding. Book ids, user ids and cart-row ids are natural numbers. A book id is its position in `libros`. A sale id is its position in `ventas`.

The acting user is a parameter of each method. The request's fields are parameters too, in these forms:

- `Entrada<T>` is a field that is absent, non-numeric, or a value.
- `Campo` is a sale-form amount: empty, blank, a number, or malformed.
- `Option<…>` is a form list entry that is usable or not.

On these points the model follows the source as written:

- A new cart row gets quantity 1 (`views.py:1036`), whatever the stock.
- Cancelling a sale has no state guard (`views.py:612-628`). Cancelling twice therefore puts the copies back twice; see `Inventario.ReponerDosVeces`.
- The administrator's sale form puts no bound on stock (`views.py:500-503`). See `Vistas.FormularioSinCotaDeStock`, which shows an accepted form driving a book's stock below zero.
- The checkout stores any non-empty payment-method string (`views.py:1099-1105`). Only `"EFECTIVO"` (cash) is treated specially. `Modelos.MetodoPago` lists the three codes the sale model declares.
- The database does not enforce uniqueness of (user, book) in the cart (`models.py:141-149`). The model proves that every cart handler preserves it: `Libreria.Valid` holds it, starting from an empty table. Checkout relies on it to keep stock non-negative (`Vistas.CompraConservaStock`).
- The discount amount the sale form accepts is stored but never applied, as in the source.

## Model

| member | source | states |
|---|---|---|
| Modelos.Venta.constructor | app_Libreria/models.py:100-108 | a new sale is PENDIENTE, with total, discount, amount received and change all zero, and no line items |
| Modelos.Venta.CalcularCambio | app_Libreria/models.py:116-123 | change is received minus total when something was received and it covers the total, otherwise zero; only `cambio` changes; the result is the new `cambio` and is never negative |
| Modelos.DetalleVenta.constructor | app_Libreria/models.py:125-132 | a line item holds the book, quantity, unit price, tax rate and subtotal it is created with |
| Modelos.DetalleVenta.Save | app_Libreria/models.py:137-139 | saving overwrites the subtotal with quantity times unit price, whatever was supplied; a second save changes nothing |
| Modelos.SubtotalComoDetalle | app_Libreria/models.py:137-152 | a line item saved with a cart row's quantity and its book's price as unit price stores exactly that row's `subtotal()` (`Carrito.Subtotal`, price times quantity) |
| Modelos.EfectivoEsMetodo | app_Libreria/models.py:88-92 | the cash code the checkout tests for is the code of the cash payment method, and no other method has it |
| Modelos.MetodoPagoDesde | app_Libreria/models.py:88-92 | a code maps to the payment method that has it, and to none when no method has it |
| Modelos.CodigoIdentificaMetodo | app_Libreria/models.py:88-92 | every payment method is recovered from its code, so the three codes are distinct |
| Inventario.Ajustar | app_Libreria/views.py:1150-1151 | one stock write keeps the catalogue's size; its effect on the totals is stated by `Inventario.AjustarTotales`, on each book by `Inventario.DescontarEn` and `Inventario.ReponerEn` |
| Inventario.Descontar | app_Libreria/views.py:1149-1151 | selling lines one write at a time keeps the catalogue's size; each book's resulting stock is stated by `Inventario.DescontarEn` |
| Inventario.Reponer | app_Libreria/views.py:618-620 | putting lines back one write at a time keeps the catalogue's size; each book's resulting stock is stated by `Inventario.ReponerEn` |
| Modelos.Libro.Disponible | app_Libreria/models.py:83-84 | a book is available when its stock is above zero; stated through `Inventario.Catalogo` and `Vistas.Libreria.AgregarAlCarrito` |
| Modelos.Carrito.Subtotal | app_Libreria/models.py:151-152 | a row's price times quantity; stated through `Modelos.SubtotalComoDetalle` and `Inventario.ImporteSiguiente` |
| Inventario.Importe | app_Libreria/views.py:1091-1093 | the cart subtotal; stated through `Inventario.ImporteSiguiente`, `Inventario.ImporteNoNegativo`, `Vistas.SumarFilas` and `Vistas.Libreria.TotalesCarrito` |
| Inventario.ConIva | app_Libreria/views.py:1095-1096 | the subtotal plus 16% tax; stated through `Inventario.ImporteNoNegativo` and `Vistas.Libreria.TotalesCarrito` |
| Inventario.SumaStock | app_Libreria/views.py:330-333 | total copies in stock; stated through `Inventario.AjustarTotales`, `Inventario.SumaStockDescontar` and `Vistas.Libreria.TotalesInventario` |
| Inventario.ValorInventario | app_Libreria/views.py:330-333 | price times stock over the catalogue; stated through `Inventario.AjustarTotales`, `Inventario.ValorTrasVenta` and `Vistas.Libreria.TotalesInventario` |
| Inventario.DescontarEn | app_Libreria/views.py:1149-1151 | after selling, each book's stock is its old stock minus the copies all lines name for it, and nothing else about the book changes |
| Inventario.ReponerEn | app_Libreria/views.py:618-620 | after putting back, each book's stock is its old stock plus the copies all lines name for it, and nothing else changes |
| Inventario.DescontarAgregar | app_Libreria/views.py:500-503 | selling one more line is one more stock write lowering that line's book by its quantity |
| Inventario.ReponerDeshaceDescontar | app_Libreria/views.py:617-620 | putting back exactly what a sale's lines took out restores the catalogue exactly |
| Inventario.ReponerDosVeces | app_Libreria/views.py:617-623 | cancelling the same lines twice adds their copies twice: the cancellation has no guard against repetition |
| Inventario.UnidadesSinLinea | app_Libreria/views.py:1137-1151 | a book no line names moves no copies |
| Inventario.UnidadesLineaUnica | app_Libreria/views.py:1137-1151 | when no book appears on two lines, a book moves exactly its one line's copies |
| Inventario.DescontarConservaStock | app_Libreria/views.py:1083-1088 | selling lines with distinct books, each within its book's stock, leaves every book that had non-negative stock non-negative |
| Inventario.UnidadesSiguiente | app_Libreria/views.py:1137-1151 | the next line adds its copies to its own book's count only |
| Inventario.LibroNoRepetido | app_Libreria/views.py:1137-1151 | with distinct books, no line before line k names line k's book |
| Inventario.DescontarDesdeOriginalEn | app_Libreria/views.py:1149-1151 | at any one book, writing line k's book as its originally loaded stock minus the quantity agrees with selling the first k+1 lines |
| Inventario.DescontarDesdeOriginal | app_Libreria/views.py:1149-1151 | when earlier lines do not name line k's book, the write from the originally loaded book equals the sequential decrement |
| Inventario.AjustarTotales | app_Libreria/views.py:330-333 | one stock write changes the total copies by its delta and the inventory value by price times delta |
| Inventario.SumaStockDescontar | app_Libreria/views.py:330-333 | selling lines lowers the total copies in stock by exactly the copies the lines name |
| Inventario.ImporteSiguiente | app_Libreria/views.py:1091-1093 | the running subtotal grows by each row's price times quantity |
| Inventario.ImporteNoNegativo | app_Libreria/views.py:1091-1096 | rows with non-negative quantities and prices cost nothing negative, and the taxed total is at least the subtotal |
| Inventario.ValorTrasDescuento | app_Libreria/views.py:1149-1151 | taking a row's copies out of stock lowers the inventory value by that row's subtotal |
| Inventario.ValorTrasVenta | app_Libreria/views.py:1137-1151 | selling a cart lowers the inventory value by exactly the cart's untaxed cost |
| Inventario.SumaSubtotalesDeFilas | app_Libreria/views.py:1139-1146 | line items storing, one for one, each row's quantity times price add up to the cart's subtotal |
| Inventario.Catalogo | app_Libreria/views.py:46-57 | the listing holds exactly the available books (stock above zero, `Libro.disponible`), or with the filter exactly those with stock zero, in increasing id order (an order the model fixes; see "## Left out") |
| Inventario.CatalogosDisjuntos | app_Libreria/views.py:52-57 | no book is in both listings, and a book is in neither exactly when its stock is negative |
| Carritos.Filtrar | app_Libreria/views.py:964 | a user's selection is exactly the rows of that user (or of every other user), drawn from the table |
| Carritos.FiltrarConservaClaves | app_Libreria/views.py:1076 | a selection of a table with unique keys has unique keys |
| Carritos.FiltrarConservaValidez | app_Libreria/views.py:1154 | deleting every row of a user, or keeping only theirs, keeps the table's integrity |
| Carritos.LibrosDistintosPropios | app_Libreria/views.py:1033-1037 | one user's rows name each book at most once |
| Carritos.SinFilasPropias | app_Libreria/views.py:957 | a table with no row of the user gives an empty selection |
| Carritos.QuitarPropiosVacia | app_Libreria/views.py:1154 | after the user's rows are deleted the user has none |
| Carritos.QuitarConservaValidez | app_Libreria/views.py:1061 | deleting one row keeps the table's integrity |
| Carritos.CambiarCantidadConservaValidez | app_Libreria/views.py:1209-1210 | setting a row's quantity to another positive one keeps the table's integrity |
| Carritos.AgregarConservaValidez | app_Libreria/views.py:1033-1037 | adding a new (user, book) row with the next id keeps the table's integrity |
| Vistas.ValidarVenta | app_Libreria/views.py:442-472 | the form is accepted exactly when client, method and total are present, the client exists, all amounts parse and are non-negative, and a cash payment covers the total; each refusal reason is given exactly when its check is the first to fail; accepted amounts are the parsed ones, with blanks as zero |
| Vistas.Aceptadas | app_Libreria/views.py:489-490 | every listed form row is below k and becomes a line item |
| Vistas.AceptadasExactas | app_Libreria/views.py:489-490 | the listed rows are exactly those below k that name a catalogue book with a numeric quantity and price, in strictly increasing order |
| Vistas.LineasFormulario | app_Libreria/views.py:489-503 | one stock line per accepted form row, in order, with that row's book and quantity, all naming catalogue books |
| Vistas.FormularioSinCotaDeStock | app_Libreria/views.py:500-503 | a form row asking for more copies than the book's stock is accepted and leaves that stock below zero by the shortfall |
| Vistas.VentaCarritoConservaStock | app_Libreria/views.py:1083-1088 | rows with distinct books, each within stock, leave no book with non-negative stock below zero once sold |
| Vistas.CompraConservaStock | app_Libreria/views.py:1083-1151 | a purchase the checkout accepts, from a table with unique (user, book) rows, leaves no book with non-negative stock below zero |
| Vistas.NuevoDetalle | app_Libreria/views.py:1139-1146 | a fresh saved line item for the given book, quantity and price, taxed at 16%, with subtotal quantity times price |
| Vistas.SumarFilas | app_Libreria/views.py:1091-1093 | the loop's subtotal is the sum of the rows' price times quantity |
| Vistas.AbrirVenta | app_Libreria/views.py:1123-1134 | a fresh completed sale with the given header amounts and no line items; its change is computed by `calcular_cambio` only when asked |
| Vistas.Libreria.BuscarEntrada | app_Libreria/views.py:1033 | finds the user's row for a book, or reports that there is none |
| Vistas.Libreria.BuscarPorId | app_Libreria/views.py:1059 | finds the row with the id when it belongs to the user, or reports that there is none |
| Vistas.Libreria.TotalesCarrito | app_Libreria/views.py:964-978 | subtotal is the user's rows' cost at current prices, tax is 16% of it, total is their sum |
| Vistas.Libreria.TotalesInventario | app_Libreria/views.py:330-333 | the sums of stock and of price times stock over the catalogue |
| Vistas.Libreria.AgregarAlCarrito | app_Libreria/views.py:1021-1050 | unknown book and no stock change nothing; a missing row is added with quantity 1 and the next id; an existing row gains exactly one copy iff its quantity is below the stock, else nothing changes; a quantity within stock stays within stock |
| Vistas.Libreria.VerCarritoActualizar | app_Libreria/views.py:956-1007 | with both fields: a quantity within stock replaces the row's when positive and deletes the row otherwise, a quantity above stock changes nothing, a bad number or unknown row changes nothing; no other row changes |
| Vistas.Libreria.ActualizarCarrito | app_Libreria/views.py:1195-1227 | a quantity of zero or less deletes the row, one within stock replaces it, one above stock changes nothing; non-numeric or unknown row changes nothing; no other row changes |
| Vistas.Libreria.EliminarDelCarrito | app_Libreria/views.py:1054-1066 | deletes exactly the user's row with that id, or reports it missing and changes nothing |
| Vistas.Libreria.VaciarCarrito | app_Libreria/views.py:956-959 | deletes every row of the user and keeps every other user's rows in order |
| Vistas.Libreria.ValidarCompra | app_Libreria/views.py:1076-1119 | accepts exactly an admissible purchase (non-empty cart, stock for each row, a method, cash covering the taxed total); each refusal names its cause with the amounts involved, and a stock refusal names the first row in cart order that is short; accepted totals are subtotal, 16% tax and their sum, and the amount received is the cash given or the total |
| Vistas.Libreria.ProcesarCompra | app_Libreria/views.py:1070-1166 | refused exactly when not admissible, and then nothing changes and the refusal gives the same reason and amounts as the checkout's checks (empty cart, the first row short of stock with requested and available copies, no method, no cash amount, cash below the taxed total); otherwise one new completed sale for the taxed total with one line item per cart row at the current price, stock lowered by each row's quantity, the user's rows deleted and every other row kept |
| Vistas.Libreria.Comprar | app_Libreria/views.py:1122-1154 | the commit: appends the sale recording the purchase, lowers the stock by the rows, deletes the user's rows |
| Vistas.Libreria.Guardar | app_Libreria/views.py:1123-1154 | stores the new sale last and deletes the user's rows, leaving the stock alone |
| Vistas.Libreria.Almacenar | app_Libreria/views.py:475-482 | stores a new sale as the last one |
| Vistas.Libreria.AdjuntarLineas | app_Libreria/views.py:1137-1151 | the stored sale gets one line item per row at the originally loaded price, their subtotals sum to the cart subtotal, and stock is lowered by the rows |
| Vistas.Libreria.Adjuntar | app_Libreria/views.py:1139-1140 | the last stored sale's line items become the given ones |
| Vistas.Libreria.RegistrarLineas | app_Libreria/views.py:1137-1151 | the commit loop: one fresh line item per row, in order, and the stock after writing each book as its loaded stock minus the row's quantity equals selling all rows |
| Vistas.Libreria.AgregarVenta | app_Libreria/views.py:438-515 | refused exactly when the form checks fail, with that reason and no change; otherwise one new completed sale with the form's amounts and their change, one line item per accepted row, stock lowered by those rows with no lower bound, cart untouched |
| Vistas.Libreria.RegistrarVenta | app_Libreria/views.py:475-512 | the accepted form's sale: appended last, recording the form, with the stock lowered by the accepted rows |
| Vistas.Libreria.RegistrarFormulario | app_Libreria/views.py:485-508 | the form's line loop: one fresh line item per accepted row, in order, at the row's quantity and price, and the stock lowered by exactly those rows |
| Vistas.Libreria.VenderLinea | app_Libreria/views.py:492-503 | one accepted row: a fresh saved line item and its book's stock lowered by the quantity |
| Vistas.Libreria.CancelarVenta | app_Libreria/views.py:612-628 | an unknown sale changes nothing; a known one, whatever its state, gets every line item's copies back into stock and is marked CANCELADA; sales and cart are untouched |
| Vistas.Libreria.ReponerStock | app_Libreria/views.py:618-620 | the loop puts back every line item's copies, one line at a time |

## Left out

- Page rendering, redirects, flash messages, login and the administrator check. The acting user is a parameter.
- `get_object_or_404` for a missing book or sale is modelled as a "not found" result with no change.
- Database transactions, concurrency and row locking. Each request is one sequential step.
- The handlers' step order inside one request is not observable. The checkout deletes the cart rows before attaching the line items, where the source attaches them first. The sale form computes the change when the sale is opened, where the source computes it after the line loop. Neither ordering changes the final state.
- Decimal rounding to two places when a field is saved, and Decimal's NaN and Infinity values. Money is exact `real`.
- Admin CRUD for authors, publishers, books, events, blog and line items, plus the sale edit screen. They copy form fields into records.
- Event date filtering, the repair scripts, seed data, URL routing and admin registration. They are file or database I/O, or framework configuration.
- Book titles, authors, publishers, ISBNs, covers and timestamps. No rule reads them.
- Inventario.Catalogo: lists book ids in increasing order. The source's query has no `order_by` (`views.py:54-57`) and the book model declares no default ordering (`models.py:77-78`), so the order the page shows is whatever the database returns.
- Vistas.Libreria.AgregarVenta: a form row whose book id names no book is skipped entirely. The source may still create a line item pointing at the missing book before its stock lookup fails. Dangling references are not part of this model.
- Vistas.ValidarVenta: a non-numeric client id makes the source's client lookup raise, and the outer handler catches it and changes nothing. The model gives it as an id that is not a customer (`ClienteInvalido`), which also changes nothing.
- Vistas.Libreria.ProcesarCompra: a malformed cash amount raises `InvalidOperation`, which the source's `except (ValueError, TypeError)` does not catch. The request therefore fails before anything is written. The model reports `PagoInvalido` with no change.
- Vistas.Libreria.ProcesarCompra: an absent cash amount reads as 0 in the source. The caller passes it as `Some(0.0)`, so it is refused for insufficient payment whenever the total is positive.
- Cart rows created through the administration site (`admin.py:48-50`). They can repeat a (user, book) pair or hold a quantity of zero or less. The model's table invariant excludes both, since no cart handler creates them. With a repeated pair the source's checkout writes each row's book from its own stale copy (`views.py:1084`, `views.py:1149-1151`), so the stock drops only by the last such row's quantity.
- Vistas.Libreria.ActualizarCarrito: a missing quantity field makes `int(None)` raise an uncaught `TypeError`. The model reports `SinCambios` with no change.
- Vistas.Libreria.ProcesarCompra: does not state that stock stays non-negative in its own contract. `Vistas.CompraConservaStock` states it for the same admissible purchase, because the property is about the stock before and after as whole catalogues.
- Vistas.Libreria.Valid: does not include that each stored line item's subtotal is quantity times price. That is stated where each line item is created (`Vistas.NuevoDetalle`, `Modelos.DetalleVenta.Save`), not kept as a store-wide invariant.

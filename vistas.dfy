/** The request handlers of the bookstore that change its data: the customer's
    cart pages, the checkout, and the administrator's sale registration and
    cancellation. A `Libreria` holds the tables those handlers read and write. */
module Vistas {
  import opened Modelos
  import opened Inventario
  import opened Carritos

  /** A form field that should hold a number: absent, present but not a
      number, or a number. The cart page's inline form treats an empty value
      as absent; the quantity form of the update page treats it as not a
      number, and only a field it is not sent at all is absent there. */
  datatype Entrada<T> = Ausente | NoNumerica | Valor(v: T)

  /** What a cart page reports to the user after handling a request. */
  datatype AvisoCarrito =
    | LibroNoEncontrado   // no book has the requested id
    | NoDisponible        // the book has no stock left
    | Agregado            // a new row holding one copy
    | Incrementado        // one more copy on the user's row
    | StockMaximo         // the row already holds every copy in stock
    | Actualizado         // the row now holds the requested quantity
    | Eliminado           // the row was deleted
    | NoExiste            // the user has no row with that id
    | StockInsuficiente   // the requested quantity exceeds the stock
    | CantidadInvalida    // a field that should be a number is not one
    | SinCambios          // the form lacks a field: the page is only shown

  /** Why the checkout refuses to complete a purchase. */
  datatype ErrorCompra =
    | CarritoVacio
    | SinStock(libro: LibroId, solicitado: int, disponible: int)
    | SinMetodoPago
    | PagoInvalido
    | PagoInsuficiente(recibido: real, requerido: real)

  /** The checkout's validation: the amounts of an acceptable purchase, or the
      first reason to refuse it. */
  datatype Validacion =
    | Aceptada(subtotal: real, iva: real, totalFinal: real, pagorecibido: real)
    | Rechazada(error: ErrorCompra)

  datatype ResultadoCompra = Compra(ventaid: nat) | CompraRechazada(error: ErrorCompra)

  /** An amount typed in the administrator's sale form: sent empty, sent as
      blanks only, a decimal number, or text that is not one. A field the form
      does not send at all reads as the number zero. */
  datatype Campo = Vacio | EnBlanco | Numero(valor: real) | Malformado

  /** Why the administrator's sale form is refused. */
  datatype ErrorVenta =
    | CamposObligatorios        // client, payment method or total missing
    | ClienteInvalido           // no customer account has that id
    | ValoresMalformados        // an amount is not a decimal number
    | ValoresNegativos          // an amount is below zero
    | PagoEfectivoInsuficiente  // a cash payment below the total

  /** The header amounts of an accepted sale form. */
  datatype Montos = Montos(montototal: real, descuentoaplicado: real, pagorecibido: real)

  datatype ValidacionVenta = VentaValida(montos: Montos) | VentaInvalida(error: ErrorVenta)

  datatype ResultadoVenta = VentaCreada(ventaid: nat) | VentaRechazada(error: ErrorVenta)

  /** The amount a field holds; empty or blank it counts as zero. */
  function ValorCampo(c: Campo): real
    requires !c.Malformado?
  {
    if c.Numero? then c.valor else 0.0
  }

  /** The administrator's sale form checks, in the order the handler makes them. */
  function ValidarVenta(clienteId: Option<UsuarioId>, clientes: set<UsuarioId>, metodopago: string,
                        montototal: Campo, descuento: Campo, pago: Campo): (r: ValidacionVenta)
    ensures r.VentaValida? <==>
      && clienteId.Some? && metodopago != "" && !montototal.Vacio?
      && clienteId.value in clientes
      && !montototal.Malformado? && !descuento.Malformado? && !pago.Malformado?
      && ValorCampo(montototal) >= 0.0 && ValorCampo(descuento) >= 0.0 && ValorCampo(pago) >= 0.0
      && (metodopago == EFECTIVO ==> ValorCampo(pago) >= ValorCampo(montototal))
    ensures r.VentaValida? ==>
      r.montos == Montos(ValorCampo(montototal), ValorCampo(descuento), ValorCampo(pago))
    ensures r == VentaInvalida(CamposObligatorios) <==>
      clienteId.None? || metodopago == "" || montototal.Vacio?
    ensures r == VentaInvalida(ClienteInvalido) <==>
      && clienteId.Some? && metodopago != "" && !montototal.Vacio?
      && clienteId.value !in clientes
    ensures r == VentaInvalida(ValoresMalformados) <==>
      && clienteId.Some? && metodopago != "" && !montototal.Vacio?
      && clienteId.value in clientes
      && (montototal.Malformado? || descuento.Malformado? || pago.Malformado?)
    ensures r == VentaInvalida(ValoresNegativos) <==>
      && clienteId.Some? && metodopago != "" && !montototal.Vacio?
      && clienteId.value in clientes
      && !montototal.Malformado? && !descuento.Malformado? && !pago.Malformado?
      && (ValorCampo(montototal) < 0.0 || ValorCampo(descuento) < 0.0 || ValorCampo(pago) < 0.0)
    ensures r == VentaInvalida(PagoEfectivoInsuficiente) <==>
      && clienteId.Some? && metodopago != "" && !montototal.Vacio?
      && clienteId.value in clientes
      && !montototal.Malformado? && !descuento.Malformado? && !pago.Malformado?
      && ValorCampo(montototal) >= 0.0 && ValorCampo(descuento) >= 0.0 && ValorCampo(pago) >= 0.0
      && metodopago == EFECTIVO && ValorCampo(pago) < ValorCampo(montototal)
  {
    if clienteId.None? || metodopago == "" || montototal.Vacio? then VentaInvalida(CamposObligatorios)
    else if clienteId.value !in clientes then VentaInvalida(ClienteInvalido)
    else if montototal.Malformado? || descuento.Malformado? || pago.Malformado? then VentaInvalida(ValoresMalformados)
    else
      var total := ValorCampo(montototal);
      var desc := ValorCampo(descuento);
      var recibido := ValorCampo(pago);
      if total < 0.0 || desc < 0.0 || recibido < 0.0 then VentaInvalida(ValoresNegativos)
      else if metodopago == EFECTIVO && recibido < total then VentaInvalida(PagoEfectivoInsuficiente)
      else VentaValida(Montos(total, desc, recibido))
  }

  /** Line `i` of the sale form becomes a line item: it names a catalogue
      book, and its quantity and unit price are both present and numeric. */
  predicate LineaAceptada(librosIds: seq<Option<LibroId>>, cantidades: seq<Option<int>>,
                          precios: seq<Option<real>>, n: nat, i: nat)
  {
    && i < |librosIds| && librosIds[i].Some? && librosIds[i].value < n
    && i < |cantidades| && cantidades[i].Some?
    && i < |precios| && precios[i].Some?
  }

  /** The indices below `k` of the form lines that become line items, in order. */
  function Aceptadas(librosIds: seq<Option<LibroId>>, cantidades: seq<Option<int>>,
                     precios: seq<Option<real>>, n: nat, k: nat): (r: seq<nat>)
    ensures forall j :: 0 <= j < |r| ==> r[j] < k && LineaAceptada(librosIds, cantidades, precios, n, r[j])
  {
    if k == 0 then []
    else
      Aceptadas(librosIds, cantidades, precios, n, k - 1)
      + (if LineaAceptada(librosIds, cantidades, precios, n, k - 1) then [k - 1] else [])
  }

  /** The indices are listed in strictly increasing order. */
  ghost predicate Creciente(r: seq<nat>)
  {
    forall i, j :: 0 <= i < j < |r| ==> r[i] < r[j]
  }

  /** The accepted indices are exactly the rows below `k` that become line
      items, each listed once, in increasing order. */
  lemma {:induction false} AceptadasExactas(librosIds: seq<Option<LibroId>>, cantidades: seq<Option<int>>,
                                            precios: seq<Option<real>>, n: nat, k: nat)
    ensures forall i: nat :: i in Aceptadas(librosIds, cantidades, precios, n, k) <==>
      i < k && LineaAceptada(librosIds, cantidades, precios, n, i)
    ensures Creciente(Aceptadas(librosIds, cantidades, precios, n, k))
  {
    if k > 0 {
      AceptadasExactas(librosIds, cantidades, precios, n, k - 1);
      var r := Aceptadas(librosIds, cantidades, precios, n, k - 1);
      var extra := if LineaAceptada(librosIds, cantidades, precios, n, k - 1) then [k - 1] else [];
      assert Aceptadas(librosIds, cantidades, precios, n, k) == r + extra;
      forall i: nat
        ensures i in r + extra <==> i < k && LineaAceptada(librosIds, cantidades, precios, n, i)
      {
        assert i in r + extra <==> i in r || i in extra;
      }
      var R := r + extra;
      forall p, q | 0 <= p < q < |R|
        ensures R[p] < R[q]
      {
        assert R[p] == r[p];
        if q < |r| {
          assert R[q] == r[q];
        } else {
          assert R[q] == k - 1;
          assert r[p] < k - 1;
        }
      }
    }
  }

  /** The stock lines of the form rows below `k` that become line items:
      each one's book and quantity, in order. */
  function LineasFormulario(librosIds: seq<Option<LibroId>>, cantidades: seq<Option<int>>,
                            precios: seq<Option<real>>, n: nat, k: nat): (r: seq<Linea>)
    ensures |r| == |Aceptadas(librosIds, cantidades, precios, n, k)|
    ensures forall j :: 0 <= j < |r| ==>
      var i := Aceptadas(librosIds, cantidades, precios, n, k)[j];
      r[j] == Linea(librosIds[i].value, cantidades[i].value)
    ensures LineasEnCatalogo(r, n)
  {
    if k == 0 then []
    else
      LineasFormulario(librosIds, cantidades, precios, n, k - 1)
      + (if LineaAceptada(librosIds, cantidades, precios, n, k - 1)
         then [Linea(librosIds[k - 1].value, cantidades[k - 1].value)] else [])
  }

  /** The sale form puts no bound on a row's quantity: a form whose one row
      asks for more copies of book `b` than it has in stock is accepted and
      leaves that book's stock below zero, by exactly the shortfall. */
  lemma FormularioSinCotaDeStock(L: seq<Libro>, b: LibroId, q: int, p: real)
    requires b < |L| && q > L[b].stock
    ensures LineaAceptada([Some(b)], [Some(q)], [Some(p)], |L|, 0)
    ensures Descontar(L, LineasFormulario([Some(b)], [Some(q)], [Some(p)], |L|, 1))[b].stock == L[b].stock - q
    ensures Descontar(L, LineasFormulario([Some(b)], [Some(q)], [Some(p)], |L|, 1))[b].stock < 0
  {
    var ls := LineasFormulario([Some(b)], [Some(q)], [Some(p)], |L|, 1);
    assert ls == [Linea(b, q)];
    DescontarAgregar(L, [], Linea(b, q));
  }

  /** Sale `v` records the administrator's form: client `cliente`, payment
      method `metodo`, completed, with the amounts `m` and the change they
      give, and one line item per accepted form row, in order, at the row's
      quantity and unit price. */
  ghost predicate VentaRegistrada(v: Venta, cliente: UsuarioId, metodo: string, m: Montos,
                                  librosIds: seq<Option<LibroId>>, cantidades: seq<Option<int>>,
                                  precios: seq<Option<real>>, n: nat)
    reads v, v.detalles
  {
    var acc := Aceptadas(librosIds, cantidades, precios, n, |librosIds|);
    && v.clienteid == cliente
    && v.metodopago == metodo
    && v.estadoventa == Completada
    && v.montototal == m.montototal
    && v.descuentoaplicado == m.descuentoaplicado
    && v.pagorecibido == m.pagorecibido
    && v.cambio == (if m.pagorecibido != 0.0 && m.pagorecibido >= m.montototal then m.pagorecibido - m.montototal else 0.0)
    && |v.detalles| == |acc|
    && (forall j :: 0 <= j < |acc| ==>
          Registra(v.detalles[j], librosIds[acc[j]].value, cantidades[acc[j]].value, precios[acc[j]].value))
  }

  /** Every row asks for no more copies than its book has in stock. */
  ghost predicate StockSuficiente(L: seq<Libro>, items: seq<Carrito>)
    requires EnCatalogo(items, |L|)
  {
    forall k :: 0 <= k < |items| ==> items[k].cantidad <= L[items[k].libro].stock
  }

  /** The checkout accepts a purchase: the cart is not empty, every row is
      covered by stock, a payment method is given, and a cash payment is a
      number that covers the taxed total. */
  ghost predicate CompraAdmisible(L: seq<Libro>, items: seq<Carrito>, metodo: string, pago: Option<real>)
    requires EnCatalogo(items, |L|)
  {
    && items != []
    && StockSuficiente(L, items)
    && metodo != ""
    && (metodo == EFECTIVO ==> pago.Some? && pago.value >= ConIva(Importe(L, items)))
  }

  /** Selling rows that name distinct books, each covered by its book's
      stock, leaves no book that had stock below zero. */
  lemma VentaCarritoConservaStock(L: seq<Libro>, items: seq<Carrito>)
    requires EnCatalogo(items, |L|)
    requires LibrosDistintos(LineasCarrito(items))
    requires StockSuficiente(L, items)
    ensures forall b :: 0 <= b < |L| && L[b].stock >= 0 ==> Descontar(L, LineasCarrito(items))[b].stock >= 0
  {
    var ls := LineasCarrito(items);
    forall k | 0 <= k < |ls|
      ensures ls[k].libro < |L| && ls[k].cantidad <= L[ls[k].libro].stock
    {
      assert ls[k] == Linea(items[k].libro, items[k].cantidad);
    }
    DescontarConservaStock(L, ls);
  }

  /** A purchase the checkout accepts lowers no book that had stock below
      zero: the cart table holds at most one row per user and book, so each
      book is lowered once, by no more than its stock. */
  lemma CompraConservaStock(L: seq<Libro>, c: seq<Carrito>, u: UsuarioId, metodo: string, pago: Option<real>)
    requires ClavesUnicas(c)
    requires EnCatalogo(Filtrar(c, u, true), |L|)
    requires CompraAdmisible(L, Filtrar(c, u, true), metodo, pago)
    ensures forall b :: 0 <= b < |L| && L[b].stock >= 0 ==>
      Descontar(L, LineasCarrito(Filtrar(c, u, true)))[b].stock >= 0
  {
    LibrosDistintosPropios(c, u);
    VentaCarritoConservaStock(L, Filtrar(c, u, true));
  }

  /** Line item `d` records `q` copies of book `b` at unit price `p`, taxed at
      16%, with the subtotal its save computes. */
  ghost predicate Registra(d: DetalleVenta, b: LibroId, q: int, p: real)
    reads d
  {
    d.libro == b && d.cantidad == q && d.preciounitario == p && d.iva == IVA
    && d.subtotal == q as real * p
  }

  /** A line item created and saved: `q` copies of book `b` at unit price `p`. */
  method NuevoDetalle(b: LibroId, q: int, p: real) returns (d: DetalleVenta)
    ensures fresh(d)
    ensures Registra(d, b, q, p)
  {
    d := new DetalleVenta(b, q, p, IVA, q as real * p);
    d.Save();
  }

  /** The running sum of the rows' subtotals at the prices of `L`. */
  method SumarFilas(L: seq<Libro>, items: seq<Carrito>) returns (subtotal: real)
    requires EnCatalogo(items, |L|)
    ensures subtotal == Importe(L, items)
  {
    subtotal := 0.0;
    var k := 0;
    while k < |items|
      invariant 0 <= k <= |items|
      invariant subtotal == Importe(L, items[..k])
    {
      var x := items[k];
      ImporteSiguiente(L, items, k);
      subtotal := subtotal + x.Subtotal(L[x.libro]);
      k := k + 1;
    }
    assert items[..k] == items;
  }

  /** A new sale header with the given amounts, completed; its change is
      computed from them when `conCambio` holds and stays zero otherwise. */
  method AbrirVenta(cliente: UsuarioId, metodo: string, montototal: real, descuento: real,
                    pagorecibido: real, conCambio: bool) returns (v: Venta)
    ensures fresh(v)
    ensures v.clienteid == cliente && v.metodopago == metodo && v.estadoventa == Completada
    ensures v.montototal == montototal && v.descuentoaplicado == descuento && v.pagorecibido == pagorecibido
    ensures v.cambio == (if conCambio && pagorecibido != 0.0 && pagorecibido >= montototal then pagorecibido - montototal else 0.0)
    ensures v.detalles == []
  {
    v := new Venta(cliente, metodo);
    v.montototal := montototal;
    v.descuentoaplicado := descuento;
    v.pagorecibido := pagorecibido;
    v.estadoventa := Completada;
    if conCambio {
      var cambio := v.CalcularCambio();
    }
  }

  /** The sales are distinct objects of `R`, and so are their line items,
      each of which names one of the `n` catalogue books. */
  ghost predicate VentasValidas(vs: seq<Venta>, n: nat, R: set<object>)
    reads vs
  {
    && (forall i, j :: 0 <= i < j < |vs| ==> vs[i] != vs[j])
    && (forall i :: 0 <= i < |vs| ==> vs[i] in R)
    && (forall i, k :: 0 <= i < |vs| && 0 <= k < |vs[i].detalles| ==> vs[i].detalles[k] in R && vs[i].detalles[k].libro < n)
  }

  /** Sale `v` records the purchase of rows `items` by user `u` at the prices
      and stock of `L`: completed, for the taxed total, paid as given (cash
      stores the amount received and its change, any other method the total),
      with one line item per row, in order, whose subtotals add up to the
      untaxed amount. */
  ghost predicate CompraRegistrada(v: Venta, u: UsuarioId, metodo: string, pago: Option<real>,
                                   L: seq<Libro>, items: seq<Carrito>)
    requires EnCatalogo(items, |L|)
    reads v, v.detalles
  {
    var total := ConIva(Importe(L, items));
    && v.clienteid == u
    && v.metodopago == metodo
    && v.estadoventa == Completada
    && v.montototal == total
    && v.descuentoaplicado == 0.0
    && (metodo == EFECTIVO ==> pago.Some? && v.pagorecibido == pago.value)
    && (metodo != EFECTIVO ==> v.pagorecibido == total)
    && v.cambio == (if metodo == EFECTIVO && pago.value != 0.0 then pago.value - total else 0.0)
    && LineasVenta(v.detalles) == LineasCarrito(items)
    && (forall k :: 0 <= k < |items| ==>
          Registra(v.detalles[k], items[k].libro, items[k].cantidad, L[items[k].libro].precioventa))
    && SumaSubtotales(v.detalles) == Importe(L, items)
  }

  /** The store's tables: the book catalogue, every user's cart rows with the
      next row id, and the sales in creation order. */
  class Libreria {
    var libros: seq<Libro>
    var carrito: seq<Carrito>
    var siguienteCarritoId: CarritoId
    var ventas: seq<Venta>
    ghost var Repr: set<object>

    /** The cart table keeps its integrity and the stored sales are consistent. */
    ghost predicate Valid()
      reads this, ventas
    {
      && CarritoValido(carrito, |libros|, siguienteCarritoId)
      && VentasValidas(ventas, |libros|, Repr)
    }

    /** A store with the given catalogue, no cart rows and no sales. */
    constructor (libros: seq<Libro>)
      ensures Valid()
      ensures this.libros == libros && carrito == [] && siguienteCarritoId == 0 && ventas == []
    {
      this.libros := libros;
      carrito := [];
      siguienteCarritoId := 0;
      ventas := [];
      Repr := {};
    }

    /** The user's rows, in table order. */
    ghost function Propios(u: UsuarioId): seq<Carrito>
      reads this
    {
      Filtrar(carrito, u, true)
    }

    /** The position of the user's row for book `b`, or -1 when there is none. */
    method BuscarEntrada(u: UsuarioId, b: LibroId) returns (i: int)
      ensures -1 <= i < |carrito|
      ensures i == -1 <==> !TieneEntrada(carrito, u, b)
      ensures 0 <= i ==> carrito[i].usuario == u && carrito[i].libro == b
    {
      i := 0;
      while i < |carrito|
        invariant 0 <= i <= |carrito|
        invariant forall k :: 0 <= k < i ==> !(carrito[k].usuario == u && carrito[k].libro == b)
      {
        if carrito[i].usuario == u && carrito[i].libro == b {
          return;
        }
        i := i + 1;
      }
      i := -1;
    }

    /** The position of the row with id `id` when it belongs to the user, or -1. */
    method BuscarPorId(u: UsuarioId, id: CarritoId) returns (i: int)
      ensures -1 <= i < |carrito|
      ensures i == -1 <==> forall k :: 0 <= k < |carrito| ==> !(carrito[k].carritoid == id && carrito[k].usuario == u)
      ensures 0 <= i ==> carrito[i].carritoid == id && carrito[i].usuario == u
    {
      i := 0;
      while i < |carrito|
        invariant 0 <= i <= |carrito|
        invariant forall k :: 0 <= k < i ==> !(carrito[k].carritoid == id && carrito[k].usuario == u)
      {
        if carrito[i].carritoid == id && carrito[i].usuario == u {
          return;
        }
        i := i + 1;
      }
      i := -1;
    }

    /** The cart page's totals: what the user's rows cost at current prices,
        the 16% tax on that, and their sum. */
    method TotalesCarrito(u: UsuarioId) returns (subtotal: real, iva: real, totalFinal: real)
      requires Valid()
      ensures EnCatalogo(Propios(u), |libros|)
      ensures subtotal == Importe(libros, Propios(u))
      ensures iva == subtotal * IVA
      ensures totalFinal == ConIva(subtotal)
    {
      var items := Filtrar(carrito, u, true);
      FiltrarConservaValidez(carrito, |libros|, siguienteCarritoId, u, true);
      subtotal := SumarFilas(libros, items);
      iva := subtotal * IVA;
      totalFinal := subtotal + iva;
    }

    /** Catalogue totals for the administrator: copies in stock and what they
        are worth at their prices. */
    method TotalesInventario() returns (totalStock: int, valorTotal: real)
      ensures totalStock == SumaStock(libros)
      ensures valorTotal == ValorInventario(libros)
    {
      totalStock := 0;
      valorTotal := 0.0;
      var k := 0;
      while k < |libros|
        invariant 0 <= k <= |libros|
        invariant totalStock == SumaStock(libros[..k])
        invariant valorTotal == ValorInventario(libros[..k])
      {
        assert libros[..k + 1][..k] == libros[..k];
        totalStock := totalStock + libros[k].stock;
        valorTotal := valorTotal + libros[k].precioventa * libros[k].stock as real;
        k := k + 1;
      }
      assert libros[..k] == libros;
    }

    /** Adds book `b` to the user's cart: a new row holding one copy, or one
        more copy on the existing row while the stock allows it. */
    method AgregarAlCarrito(u: UsuarioId, b: LibroId) returns (a: AvisoCarrito)
      requires Valid()
      modifies this
      ensures Valid()
      ensures libros == old(libros) && ventas == old(ventas) && Repr == old(Repr)
      ensures a == LibroNoEncontrado <==> b >= |libros|
      ensures a == NoDisponible <==> b < |libros| && !libros[b].Disponible()
      ensures a == Agregado <==> b < |libros| && libros[b].Disponible() && !TieneEntrada(old(carrito), u, b)
      ensures a == Agregado ==>
        carrito == old(carrito) + [Carrito(old(siguienteCarritoId), u, b, 1)]
        && siguienteCarritoId == old(siguienteCarritoId) + 1
      ensures a != Agregado ==> siguienteCarritoId == old(siguienteCarritoId)
      ensures a == LibroNoEncontrado || a == NoDisponible || a == StockMaximo ==> carrito == old(carrito)
      ensures forall i :: 0 <= i < |old(carrito)| && old(carrito)[i].usuario == u && old(carrito)[i].libro == b && b < |libros| && libros[b].Disponible() ==>
        if old(carrito)[i].cantidad < libros[b].stock
        then a == Incrementado && carrito == old(carrito)[i := old(carrito)[i].(cantidad := old(carrito)[i].cantidad + 1)]
        else a == StockMaximo
      ensures a == Agregado || a == Incrementado ==>
        b < |libros| && forall i :: 0 <= i < |carrito| && carrito[i].usuario == u && carrito[i].libro == b ==> carrito[i].cantidad <= libros[b].stock
    {
      if b >= |libros| {
        return LibroNoEncontrado;
      }
      if libros[b].stock <= 0 {
        return NoDisponible;
      }
      var i := BuscarEntrada(u, b);
      if i < 0 {
        var x := Carrito(siguienteCarritoId, u, b, 1);
        AgregarConservaValidez(carrito, |libros|, siguienteCarritoId, x);
        carrito := carrito + [x];
        siguienteCarritoId := siguienteCarritoId + 1;
        a := Agregado;
      } else if carrito[i].cantidad < libros[b].stock {
        CambiarCantidadConservaValidez(carrito, |libros|, siguienteCarritoId, i, carrito[i].cantidad + 1);
        carrito := carrito[i := carrito[i].(cantidad := carrito[i].cantidad + 1)];
        a := Incrementado;
      } else {
        a := StockMaximo;
      }
    }

    /** The quantity form of the cart page: the row with id `itemId`, when it
        is the user's, gets quantity `cantidad` if the stock covers it, and is
        deleted when that quantity is not positive. */
    method VerCarritoActualizar(u: UsuarioId, itemId: Entrada<CarritoId>, cantidad: Entrada<int>) returns (a: AvisoCarrito)
      requires Valid()
      modifies this
      ensures Valid()
      ensures libros == old(libros) && ventas == old(ventas) && Repr == old(Repr)
      ensures siguienteCarritoId == old(siguienteCarritoId)
      ensures a != Actualizado && a != Eliminado ==> carrito == old(carrito)
      ensures itemId.Ausente? || cantidad.Ausente? ==> a == SinCambios
      ensures itemId.NoNumerica? && !cantidad.Ausente? ==> a == CantidadInvalida
      ensures itemId.Valor? && !cantidad.Ausente? ==>
        (a == NoExiste <==> forall k :: 0 <= k < |old(carrito)| ==> !(old(carrito)[k].carritoid == itemId.v && old(carrito)[k].usuario == u))
      ensures forall i :: 0 <= i < |old(carrito)| && itemId.Valor? && old(carrito)[i].carritoid == itemId.v && old(carrito)[i].usuario == u ==>
        var x := old(carrito)[i];
        && (cantidad.NoNumerica? ==> a == CantidadInvalida)
        && (cantidad.Valor? && 0 < cantidad.v <= libros[x.libro].stock ==>
              a == Actualizado && carrito == old(carrito)[i := x.(cantidad := cantidad.v)])
        && (cantidad.Valor? && cantidad.v <= 0 && cantidad.v <= libros[x.libro].stock ==>
              a == Eliminado && carrito == old(carrito)[..i] + old(carrito)[i + 1..])
        && (cantidad.Valor? && cantidad.v > libros[x.libro].stock ==> a == StockInsuficiente)
    {
      if itemId.Ausente? || cantidad.Ausente? {
        return SinCambios;
      }
      if itemId.NoNumerica? {
        return CantidadInvalida;
      }
      var i := BuscarPorId(u, itemId.v);
      if i < 0 {
        return NoExiste;
      }
      if cantidad.NoNumerica? {
        return CantidadInvalida;
      }
      var x := carrito[i];
      var q := cantidad.v;
      if q <= libros[x.libro].stock {
        if q > 0 {
          CambiarCantidadConservaValidez(carrito, |libros|, siguienteCarritoId, i, q);
          carrito := carrito[i := x.(cantidad := q)];
          a := Actualizado;
        } else {
          QuitarConservaValidez(carrito, |libros|, siguienteCarritoId, i);
          carrito := carrito[..i] + carrito[i + 1..];
          a := Eliminado;
        }
      } else {
        a := StockInsuficiente;
      }
    }

    /** The quantity form of a single row: a positive quantity the stock covers
        replaces the row's, any other number deletes the row. */
    method ActualizarCarrito(u: UsuarioId, id: CarritoId, cantidad: Entrada<int>) returns (a: AvisoCarrito)
      requires Valid()
      modifies this
      ensures Valid()
      ensures libros == old(libros) && ventas == old(ventas) && Repr == old(Repr)
      ensures siguienteCarritoId == old(siguienteCarritoId)
      ensures a != Actualizado && a != Eliminado ==> carrito == old(carrito)
      ensures cantidad.Ausente? ==> a == SinCambios
      ensures cantidad.NoNumerica? ==> a == CantidadInvalida
      ensures cantidad.Valor? ==>
        (a == NoExiste <==> forall k :: 0 <= k < |old(carrito)| ==> !(old(carrito)[k].carritoid == id && old(carrito)[k].usuario == u))
      ensures forall i :: 0 <= i < |old(carrito)| && cantidad.Valor? && old(carrito)[i].carritoid == id && old(carrito)[i].usuario == u ==>
        var x := old(carrito)[i];
        && (0 < cantidad.v <= libros[x.libro].stock ==>
              a == Actualizado && carrito == old(carrito)[i := x.(cantidad := cantidad.v)])
        && (cantidad.v <= 0 ==> a == Eliminado && carrito == old(carrito)[..i] + old(carrito)[i + 1..])
        && (cantidad.v > 0 && cantidad.v > libros[x.libro].stock ==> a == StockInsuficiente)
    {
      if cantidad.Ausente? {
        return SinCambios;
      }
      if cantidad.NoNumerica? {
        return CantidadInvalida;
      }
      var q := cantidad.v;
      var i := BuscarPorId(u, id);
      if i < 0 {
        return NoExiste;
      }
      var x := carrito[i];
      if q > 0 {
        if q <= libros[x.libro].stock {
          CambiarCantidadConservaValidez(carrito, |libros|, siguienteCarritoId, i, q);
          carrito := carrito[i := x.(cantidad := q)];
          a := Actualizado;
        } else {
          a := StockInsuficiente;
        }
      } else {
        QuitarConservaValidez(carrito, |libros|, siguienteCarritoId, i);
        carrito := carrito[..i] + carrito[i + 1..];
        a := Eliminado;
      }
    }

    /** Deletes the user's row with id `id`, if the user has one. */
    method EliminarDelCarrito(u: UsuarioId, id: CarritoId) returns (a: AvisoCarrito)
      requires Valid()
      modifies this
      ensures Valid()
      ensures libros == old(libros) && ventas == old(ventas) && Repr == old(Repr)
      ensures siguienteCarritoId == old(siguienteCarritoId)
      ensures a == Eliminado || a == NoExiste
      ensures a == NoExiste <==> forall k :: 0 <= k < |old(carrito)| ==> !(old(carrito)[k].carritoid == id && old(carrito)[k].usuario == u)
      ensures a == NoExiste ==> carrito == old(carrito)
      ensures forall i :: 0 <= i < |old(carrito)| && old(carrito)[i].carritoid == id && old(carrito)[i].usuario == u ==>
        carrito == old(carrito)[..i] + old(carrito)[i + 1..]
    {
      var i := BuscarPorId(u, id);
      if i < 0 {
        return NoExiste;
      }
      QuitarConservaValidez(carrito, |libros|, siguienteCarritoId, i);
      carrito := carrito[..i] + carrito[i + 1..];
      a := Eliminado;
    }

    /** Empties the user's cart and leaves every other user's rows as they were. */
    method VaciarCarrito(u: UsuarioId)
      requires Valid()
      modifies this
      ensures Valid()
      ensures libros == old(libros) && ventas == old(ventas) && Repr == old(Repr)
      ensures siguienteCarritoId == old(siguienteCarritoId)
      ensures carrito == Filtrar(old(carrito), u, false)
      ensures Propios(u) == []
    {
      var otros := Filtrar(carrito, u, false);
      FiltrarConservaValidez(carrito, |libros|, siguienteCarritoId, u, false);
      QuitarPropiosVacia(carrito, u);
      carrito := otros;
    }

    /** The checkout's checks, in the order the handler makes them: a non-empty
        cart, stock for every row, a payment method, and for cash a number
        that covers the taxed total. */
    method ValidarCompra(u: UsuarioId, metodo: string, pago: Option<real>) returns (v: Validacion)
      requires Valid()
      ensures EnCatalogo(Propios(u), |libros|)
      ensures v.Aceptada? <==> CompraAdmisible(libros, Propios(u), metodo, pago)
      ensures v == Rechazada(CarritoVacio) <==> Propios(u) == []
      ensures v.Rechazada? && v.error.SinStock? ==>
        Propios(u) != [] &&
        exists k :: 0 <= k < |Propios(u)| && Propios(u)[k].libro == v.error.libro
          && Propios(u)[k].cantidad == v.error.solicitado
          && libros[Propios(u)[k].libro].stock == v.error.disponible
          && v.error.solicitado > v.error.disponible
          && forall j :: 0 <= j < k ==> Propios(u)[j].cantidad <= libros[Propios(u)[j].libro].stock
      ensures v == Rechazada(SinMetodoPago) || v == Rechazada(PagoInvalido) || (v.Rechazada? && v.error.PagoInsuficiente?) ==>
        Propios(u) != [] && StockSuficiente(libros, Propios(u))
      ensures v == Rechazada(SinMetodoPago) ==> metodo == ""
      ensures v == Rechazada(PagoInvalido) ==> metodo == EFECTIVO && pago.None?
      ensures v.Rechazada? && v.error.PagoInsuficiente? ==>
        metodo == EFECTIVO && pago == Some(v.error.recibido)
        && v.error.requerido == ConIva(Importe(libros, Propios(u)))
        && v.error.recibido < v.error.requerido
      ensures v.Aceptada? ==>
        && v.subtotal == Importe(libros, Propios(u))
        && v.iva == v.subtotal * IVA
        && v.totalFinal == ConIva(v.subtotal)
        && v.pagorecibido == (if metodo == EFECTIVO then pago.value else v.totalFinal)
    {
      var items := Filtrar(carrito, u, true);
      FiltrarConservaValidez(carrito, |libros|, siguienteCarritoId, u, true);
      if items == [] {
        return Rechazada(CarritoVacio);
      }
      var k := 0;
      while k < |items|
        invariant 0 <= k <= |items|
        invariant forall j :: 0 <= j < k ==> items[j].cantidad <= libros[items[j].libro].stock
      {
        var x := items[k];
        if x.cantidad > libros[x.libro].stock {
          return Rechazada(SinStock(x.libro, x.cantidad, libros[x.libro].stock));
        }
        k := k + 1;
      }
      var subtotal, iva, totalFinal := TotalesCarrito(u);
      if metodo == "" {
        return Rechazada(SinMetodoPago);
      }
      var pagorecibido := totalFinal;
      if metodo == EFECTIVO {
        if pago.None? {
          return Rechazada(PagoInvalido);
        }
        if pago.value < totalFinal {
          return Rechazada(PagoInsuficiente(pago.value, totalFinal));
        }
        pagorecibido := pago.value;
      }
      v := Aceptada(subtotal, iva, totalFinal, pagorecibido);
    }

    /** Completes the user's purchase: a completed sale for the taxed total
        with one line item per cart row at the current price, the stock of
        every book lowered by the copies bought, and the user's cart emptied.
        A refused purchase changes nothing. */
    method ProcesarCompra(u: UsuarioId, metodo: string, pago: Option<real>) returns (r: ResultadoCompra)
      requires Valid()
      modifies this
      ensures Valid()
      ensures old(EnCatalogo(Propios(u), |libros|))
      ensures r.CompraRechazada? <==> !old(CompraAdmisible(libros, Propios(u), metodo, pago))
      ensures r.CompraRechazada? ==> unchanged(this)
      ensures r == CompraRechazada(CarritoVacio) <==> old(Propios(u)) == []
      ensures r.CompraRechazada? && r.error.SinStock? ==>
        Propios(u) != [] &&
        exists k :: 0 <= k < |Propios(u)| && Propios(u)[k].libro == r.error.libro
          && Propios(u)[k].cantidad == r.error.solicitado
          && libros[Propios(u)[k].libro].stock == r.error.disponible
          && r.error.solicitado > r.error.disponible
          && forall j :: 0 <= j < k ==> Propios(u)[j].cantidad <= libros[Propios(u)[j].libro].stock
      ensures r == CompraRechazada(SinMetodoPago) || r == CompraRechazada(PagoInvalido)
              || (r.CompraRechazada? && r.error.PagoInsuficiente?) ==>
        Propios(u) != [] && StockSuficiente(libros, Propios(u))
      ensures r == CompraRechazada(SinMetodoPago) ==> metodo == ""
      ensures r == CompraRechazada(PagoInvalido) ==> metodo == EFECTIVO && pago.None?
      ensures r.CompraRechazada? && r.error.PagoInsuficiente? ==>
        metodo == EFECTIVO && pago == Some(r.error.recibido)
        && r.error.requerido == ConIva(Importe(libros, Propios(u)))
        && r.error.recibido < r.error.requerido
      ensures r.Compra? ==>
        && r.ventaid == |old(ventas)|
        && |ventas| == |old(ventas)| + 1 && ventas == old(ventas) + [ventas[r.ventaid]]
        && fresh(ventas[r.ventaid])
        && (forall k :: 0 <= k < |ventas[r.ventaid].detalles| ==> fresh(ventas[r.ventaid].detalles[k]))
        && CompraRegistrada(ventas[r.ventaid], u, metodo, pago, old(libros), old(Propios(u)))
        && libros == Descontar(old(libros), LineasCarrito(old(Propios(u))))
        && carrito == Filtrar(old(carrito), u, false)
        && Propios(u) == []
        && siguienteCarritoId == old(siguienteCarritoId)
    {
      var val := ValidarCompra(u, metodo, pago);
      if val.Rechazada? {
        return CompraRechazada(val.error);
      }
      LibrosDistintosPropios(carrito, u);
      var id := Comprar(u, metodo, pago, Filtrar(carrito, u, true), val.totalFinal, val.pagorecibido);
      QuitarPropiosVacia(old(carrito), u);
      r := Compra(id);
    }

    /** The checkout once its checks have passed for the user's rows `items`:
        a completed sale for the taxed total `total`, having received
        `recibido`, with one line item per row, the stock lowered and the
        user's rows deleted. */
    method Comprar(u: UsuarioId, metodo: string, pago: Option<real>, items: seq<Carrito>,
                   total: real, recibido: real) returns (id: nat)
      requires Valid()
      requires EnCatalogo(items, |libros|)
      requires LibrosDistintos(LineasCarrito(items))
      requires StockSuficiente(libros, items)
      requires total == ConIva(Importe(libros, items))
      requires metodo == EFECTIVO ==> pago.Some? && pago.value >= total
      requires recibido == (if metodo == EFECTIVO then pago.value else total)
      modifies this
      ensures Valid()
      ensures id == |old(ventas)| && |ventas| == |old(ventas)| + 1 && ventas == old(ventas) + [ventas[id]]
      ensures fresh(ventas[id])
      ensures forall k :: 0 <= k < |ventas[id].detalles| ==> fresh(ventas[id].detalles[k])
      ensures CompraRegistrada(ventas[id], u, metodo, pago, old(libros), items)
      ensures libros == Descontar(old(libros), LineasCarrito(items))
      ensures carrito == Filtrar(old(carrito), u, false)
      ensures siguienteCarritoId == old(siguienteCarritoId)
    {
      ghost var precios := libros;
      var venta := AbrirVenta(u, metodo, total, 0.0, recibido, metodo == EFECTIVO);
      id := Guardar(u, venta);
      AdjuntarLineas(venta, items);
      assert ventas[id] == venta;
      assert CompraRegistrada(venta, u, metodo, pago, precios, items);
    }

    /** Deletes the user's cart rows and stores a new sale that has no line
        items yet. */
    method Guardar(u: UsuarioId, venta: Venta) returns (id: nat)
      requires Valid()
      requires venta !in Repr && venta.detalles == []
      modifies this
      ensures Valid()
      ensures id == |old(ventas)| && ventas == old(ventas) + [venta]
      ensures libros == old(libros) && siguienteCarritoId == old(siguienteCarritoId)
      ensures carrito == Filtrar(old(carrito), u, false)
    {
      var otros := Filtrar(carrito, u, false);
      FiltrarConservaValidez(carrito, |libros|, siguienteCarritoId, u, false);
      carrito := otros;
      id := Almacenar(venta);
    }

    /** Stores a new sale that has no line items yet, as the last one. */
    method Almacenar(venta: Venta) returns (id: nat)
      requires Valid()
      requires venta !in Repr && venta.detalles == []
      modifies this`ventas, this`Repr
      ensures Valid()
      ensures id == |old(ventas)| && ventas == old(ventas) + [venta]
    {
      ventas := ventas + [venta];
      id := |ventas| - 1;
      Repr := Repr + {venta};
    }

    /** Gives the last stored sale one line item per row of `items` and lowers
        the stock accordingly. */
    method AdjuntarLineas(venta: Venta, items: seq<Carrito>)
      requires Valid()
      requires |ventas| > 0 && ventas[|ventas| - 1] == venta && venta.detalles == []
      requires EnCatalogo(items, |libros|)
      requires LibrosDistintos(LineasCarrito(items))
      requires StockSuficiente(libros, items)
      modifies this`libros, this`Repr, venta`detalles
      ensures Valid()
      ensures LineasVenta(venta.detalles) == LineasCarrito(items)
      ensures |venta.detalles| == |items|
      ensures forall k :: 0 <= k < |items| ==>
        fresh(venta.detalles[k])
        && Registra(venta.detalles[k], items[k].libro, items[k].cantidad, old(libros)[items[k].libro].precioventa)
      ensures SumaSubtotales(venta.detalles) == Importe(old(libros), items)
      ensures libros == Descontar(old(libros), LineasCarrito(items))
    {
      var ds := RegistrarLineas(items);
      Adjuntar(venta, ds);
    }

    /** The last stored sale, which has no line items, gets `ds`. */
    method Adjuntar(venta: Venta, ds: seq<DetalleVenta>)
      requires Valid()
      requires |ventas| > 0 && ventas[|ventas| - 1] == venta && venta.detalles == []
      requires forall k :: 0 <= k < |ds| ==> ds[k].libro < |libros|
      modifies this`Repr, venta`detalles
      ensures Valid()
      ensures venta.detalles == ds
    {
      venta.detalles := ds;
      Repr := Repr + set d | d in ds;
    }

    /** The administrator's sale form: once its checks pass, a completed sale
        with the amounts entered and their change, one line item per form
        row that names a catalogue book and has a numeric quantity and price,
        and each such book's stock lowered by the row's quantity, with no
        lower bound. A refused form changes nothing. */
    method AgregarVenta(clienteId: Option<UsuarioId>, clientes: set<UsuarioId>, metodopago: string,
                        montototal: Campo, descuento: Campo, pago: Campo,
                        librosIds: seq<Option<LibroId>>, cantidades: seq<Option<int>>,
                        precios: seq<Option<real>>) returns (r: ResultadoVenta)
      requires Valid()
      modifies this
      ensures Valid()
      ensures r.VentaRechazada? <==> ValidarVenta(clienteId, clientes, metodopago, montototal, descuento, pago).VentaInvalida?
      ensures r.VentaRechazada? ==>
        r.error == ValidarVenta(clienteId, clientes, metodopago, montototal, descuento, pago).error && unchanged(this)
      ensures r.VentaCreada? ==>
        && clienteId.Some?
        && r.ventaid == |old(ventas)| && |ventas| == |old(ventas)| + 1 && ventas == old(ventas) + [ventas[r.ventaid]]
        && fresh(ventas[r.ventaid])
        && (forall k :: 0 <= k < |ventas[r.ventaid].detalles| ==> fresh(ventas[r.ventaid].detalles[k]))
        && VentaRegistrada(ventas[r.ventaid], clienteId.value, metodopago,
                           ValidarVenta(clienteId, clientes, metodopago, montototal, descuento, pago).montos,
                           librosIds, cantidades, precios, |old(libros)|)
        && libros == Descontar(old(libros), LineasFormulario(librosIds, cantidades, precios, |old(libros)|, |librosIds|))
        && carrito == old(carrito) && siguienteCarritoId == old(siguienteCarritoId)
    {
      var val := ValidarVenta(clienteId, clientes, metodopago, montototal, descuento, pago);
      if val.VentaInvalida? {
        return VentaRechazada(val.error);
      }
      var id := RegistrarVenta(clienteId.value, metodopago, val.montos, librosIds, cantidades, precios);
      r := VentaCreada(id);
    }

    /** The administrator's sale once the form's checks have passed. The
        change depends only on the header amounts, so it is computed when the
        sale is opened rather than after the line loop. */
    method RegistrarVenta(cliente: UsuarioId, metodo: string, m: Montos, librosIds: seq<Option<LibroId>>,
                          cantidades: seq<Option<int>>, precios: seq<Option<real>>) returns (id: nat)
      requires Valid()
      modifies this
      ensures Valid()
      ensures id == |old(ventas)| && |ventas| == |old(ventas)| + 1 && ventas == old(ventas) + [ventas[id]]
      ensures fresh(ventas[id])
      ensures forall k :: 0 <= k < |ventas[id].detalles| ==> fresh(ventas[id].detalles[k])
      ensures VentaRegistrada(ventas[id], cliente, metodo, m, librosIds, cantidades, precios, |old(libros)|)
      ensures libros == Descontar(old(libros), LineasFormulario(librosIds, cantidades, precios, |old(libros)|, |librosIds|))
      ensures carrito == old(carrito) && siguienteCarritoId == old(siguienteCarritoId)
    {
      var venta := AbrirVenta(cliente, metodo, m.montototal, m.descuentoaplicado, m.pagorecibido, true);
      id := Almacenar(venta);
      var ds := RegistrarFormulario(librosIds, cantidades, precios);
      Adjuntar(venta, ds);
      assert ventas[id] == venta;
      assert VentaRegistrada(venta, cliente, metodo, m, librosIds, cantidades, precios, |old(libros)|);
    }

    /** The administrator's line loop: every accepted form row becomes a saved
        line item and lowers its book's stock by the row's quantity. */
    method RegistrarFormulario(librosIds: seq<Option<LibroId>>, cantidades: seq<Option<int>>,
                               precios: seq<Option<real>>) returns (ds: seq<DetalleVenta>)
      modifies this`libros
      ensures |ds| == |Aceptadas(librosIds, cantidades, precios, |old(libros)|, |librosIds|)|
      ensures forall j :: 0 <= j < |ds| ==>
        var i := Aceptadas(librosIds, cantidades, precios, |old(libros)|, |librosIds|)[j];
        fresh(ds[j]) && Registra(ds[j], librosIds[i].value, cantidades[i].value, precios[i].value)
      ensures forall j :: 0 <= j < |ds| ==> ds[j].libro < |libros|
      ensures libros == Descontar(old(libros), LineasFormulario(librosIds, cantidades, precios, |old(libros)|, |librosIds|))
    {
      ghost var n := |libros|;
      ghost var acc: seq<nat> := [];
      ghost var ls: seq<Linea> := [];
      ds := [];
      var i: nat := 0;
      while i < |librosIds|
        invariant 0 <= i <= |librosIds|
        invariant |libros| == n
        invariant acc == Aceptadas(librosIds, cantidades, precios, n, i)
        invariant ls == LineasFormulario(librosIds, cantidades, precios, n, i)
        invariant |ds| == |acc|
        invariant forall j :: 0 <= j < |ds| ==>
          fresh(ds[j]) && Registra(ds[j], librosIds[acc[j]].value, cantidades[acc[j]].value, precios[acc[j]].value)
        invariant libros == Descontar(old(libros), ls)
      {
        if LineaAceptada(librosIds, cantidades, precios, |libros|, i) {
          var b := librosIds[i].value;
          var q := cantidades[i].value;
          var d := VenderLinea(b, q, precios[i].value);
          ds := ds + [d];
          DescontarAgregar(old(libros), ls, Linea(b, q));
          acc := acc + [i];
          ls := ls + [Linea(b, q)];
        }
        i := i + 1;
      }
    }

    /** One accepted form row: a saved line item for `q` copies of book `b`
        at unit price `p`, and the book's stock lowered by `q`. */
    method VenderLinea(b: LibroId, q: int, p: real) returns (d: DetalleVenta)
      requires b < |libros|
      modifies this`libros
      ensures fresh(d) && Registra(d, b, q, p)
      ensures libros == Ajustar(old(libros), b, -q)
    {
      d := NuevoDetalle(b, q, p);
      libros := libros[b := libros[b].(stock := libros[b].stock - q)];
    }

    /** Cancels sale `id`, when there is one: every line item's copies go
        back into stock and the sale is marked cancelled, whatever its state
        was, so cancelling a sale twice puts its copies back twice. */
    method CancelarVenta(id: nat) returns (encontrada: bool)
      requires Valid()
      modifies this`libros, (if id < |ventas| then {ventas[id]} else {})`estadoventa
      ensures Valid()
      ensures encontrada <==> id < |old(ventas)|
      ensures ventas == old(ventas) && carrito == old(carrito) && siguienteCarritoId == old(siguienteCarritoId)
      ensures !encontrada ==> libros == old(libros)
      ensures encontrada ==>
        && libros == Reponer(old(libros), LineasVenta(ventas[id].detalles))
        && ventas[id].estadoventa == Cancelada
    {
      if id >= |ventas| {
        return false;
      }
      var venta := ventas[id];
      ReponerStock(venta.detalles);
      venta.estadoventa := Cancelada;
      encontrada := true;
    }

    /** Puts back in stock the copies of line items `ds`, one line at a time. */
    method ReponerStock(ds: seq<DetalleVenta>)
      requires forall k :: 0 <= k < |ds| ==> ds[k].libro < |libros|
      modifies this`libros
      ensures libros == Reponer(old(libros), LineasVenta(ds))
    {
      ghost var ls := LineasVenta(ds);
      var k := 0;
      while k < |ds|
        invariant 0 <= k <= |ds|
        invariant |libros| == |old(libros)|
        invariant libros == Reponer(old(libros), ls[..k])
      {
        var d := ds[k];
        assert ls[..k + 1][..k] == ls[..k];
        libros := libros[d.libro := libros[d.libro].(stock := libros[d.libro].stock + d.cantidad)];
        k := k + 1;
      }
      assert ls[..k] == ls;
    }

    /** The checkout's commit loop: one line item per row, at the price of the
        book instance the checks loaded, and one stock write per row storing
        that instance's stock minus the row's quantity. The rows name distinct
        books, so the writes amount to lowering each book by its quantity. */
    method RegistrarLineas(items: seq<Carrito>) returns (ds: seq<DetalleVenta>)
      requires EnCatalogo(items, |libros|)
      requires LibrosDistintos(LineasCarrito(items))
      requires StockSuficiente(libros, items)
      modifies this`libros
      ensures LineasVenta(ds) == LineasCarrito(items)
      ensures |ds| == |items|
      ensures forall k :: 0 <= k < |items| ==>
        fresh(ds[k]) && Registra(ds[k], items[k].libro, items[k].cantidad, old(libros)[items[k].libro].precioventa)
      ensures SumaSubtotales(ds) == Importe(old(libros), items)
      ensures libros == Descontar(old(libros), LineasCarrito(items))
    {
      // The book instances the checks loaded; every stock write starts from them.
      var cache := libros;
      ghost var ls := LineasCarrito(items);
      ds := [];
      var k := 0;
      while k < |items|
        invariant 0 <= k <= |items|
        invariant |libros| == |cache|
        invariant libros == Descontar(cache, ls[..k])
        invariant |ds| == k
        invariant forall j :: 0 <= j < k ==>
          fresh(ds[j]) && Registra(ds[j], items[j].libro, items[j].cantidad, cache[items[j].libro].precioventa)
      {
        var x := items[k];
        var d := NuevoDetalle(x.libro, x.cantidad, cache[x.libro].precioventa);
        ds := ds + [d];
        LibroNoRepetido(ls, k);
        DescontarDesdeOriginal(cache, ls, k);
        libros := libros[x.libro := cache[x.libro].(stock := cache[x.libro].stock - x.cantidad)];
        k := k + 1;
      }
      assert items[..k] == items && ls[..k] == ls;
      assert LineasVenta(ds) == ls;
      SumaSubtotalesDeFilas(ds, cache, items);
    }
  }
}

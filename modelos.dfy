/** The bookstore's records: books, cart rows, sales and sale line items.
    Books and cart rows are values the request handlers replace; a sale and
    its line items are objects whose methods assign their own fields. */
module Modelos {

  type LibroId = nat
  type UsuarioId = nat
  type CarritoId = nat

  /** The value-added tax rate applied to every sale line: 16%. */
  const IVA: real := 0.16

  datatype Option<T> = None | Some(value: T)

  /** A book's price and stock; title, author, publisher, ISBN, genre and
      cover are not part of this model. */
  datatype Libro = Libro(precioventa: real, stock: int)
  {
    /** A book can be sold while it has stock left. */
    predicate Disponible()
    {
      stock > 0
    }
  }

  /** The three payment methods a sale offers, with the code the sale stores. */
  datatype MetodoPago = Efectivo | Tarjeta | Transferencia
  {
    function Codigo(): string
    {
      match this
      case Efectivo => "EFECTIVO"
      case Tarjeta => "TARJETA"
      case Transferencia => "TRANSFERENCIA"
    }
  }

  /** The payment method whose stored code is `codigo`, if any. */
  function MetodoPagoDesde(codigo: string): (r: Option<MetodoPago>)
    ensures r.Some? ==> r.value.Codigo() == codigo
    ensures r.None? ==> forall m: MetodoPago :: m.Codigo() != codigo
  {
    if codigo == "EFECTIVO" then Some(Efectivo)
    else if codigo == "TARJETA" then Some(Tarjeta)
    else if codigo == "TRANSFERENCIA" then Some(Transferencia)
    else None
  }

  /** Every payment method is recovered from its code, so the codes are distinct. */
  lemma CodigoIdentificaMetodo(m: MetodoPago)
    ensures MetodoPagoDesde(m.Codigo()) == Some(m)
  {
  }

  /** The cash payment code, the only one the checkout treats specially. */
  const EFECTIVO: string := "EFECTIVO"

  /** The cash code is the code of the cash payment method and of no other. */
  lemma EfectivoEsMetodo()
    ensures MetodoPagoDesde(EFECTIVO) == Some(Efectivo)
    ensures forall m: MetodoPago :: m.Codigo() == EFECTIVO <==> m == Efectivo
  {
  }

  datatype EstadoVenta = Pendiente | Completada | Cancelada

  /** One cart row: a user, a book and how many copies of it. */
  datatype Carrito = Carrito(carritoid: CarritoId, usuario: UsuarioId, libro: LibroId, cantidad: int)
  {
    /** What this row costs at the price of `l`, the book it refers to. */
    function Subtotal(l: Libro): real
    {
      l.precioventa * cantidad as real
    }
  }

  /** A sale header. `detalles` is the reverse relation: the line items whose
      sale is this one, in creation order. */
  class Venta {
    var clienteid: UsuarioId
    var montototal: real
    var metodopago: string
    var estadoventa: EstadoVenta
    var descuentoaplicado: real
    var pagorecibido: real
    var cambio: real
    var detalles: seq<DetalleVenta>

    /** A new sale: still pending, with every amount at zero and no lines. */
    constructor (clienteid: UsuarioId, metodopago: string)
      ensures this.clienteid == clienteid && this.metodopago == metodopago
      ensures estadoventa == Pendiente
      ensures montototal == 0.0 && descuentoaplicado == 0.0
      ensures pagorecibido == 0.0 && cambio == 0.0
      ensures detalles == []
    {
      this.clienteid := clienteid;
      this.metodopago := metodopago;
      estadoventa := Pendiente;
      montototal := 0.0;
      descuentoaplicado := 0.0;
      pagorecibido := 0.0;
      cambio := 0.0;
      detalles := [];
    }

    /** Change due: what was received beyond the total, or zero when nothing
        was received or it does not cover the total. Only `cambio` changes. */
    method CalcularCambio() returns (c: real)
      modifies this`cambio
      ensures c == cambio
      ensures pagorecibido != 0.0 && pagorecibido >= montototal ==> cambio == pagorecibido - montototal
      ensures !(pagorecibido != 0.0 && pagorecibido >= montototal) ==> cambio == 0.0
      ensures cambio >= 0.0
    {
      if pagorecibido != 0.0 && pagorecibido >= montototal {
        cambio := pagorecibido - montototal;
      } else {
        cambio := 0.0;
      }
      c := cambio;
    }
  }

  /** A sale line item. The core never reassigns the book, quantity, unit
      price or tax rate of a stored line, so they are constants; `subtotal`
      is assigned on every save. */
  class DetalleVenta {
    const libro: LibroId
    const cantidad: int
    const preciounitario: real
    const iva: real
    var subtotal: real

    constructor (libro: LibroId, cantidad: int, preciounitario: real, iva: real, subtotal: real)
      ensures this.libro == libro && this.cantidad == cantidad
      ensures this.preciounitario == preciounitario && this.iva == iva
      ensures this.subtotal == subtotal
    {
      this.libro := libro;
      this.cantidad := cantidad;
      this.preciounitario := preciounitario;
      this.iva := iva;
      this.subtotal := subtotal;
    }

    /** Saving overwrites whatever subtotal was supplied with quantity times
        unit price; a second save therefore changes nothing. */
    method Save()
      modifies this`subtotal
      ensures subtotal == cantidad as real * preciounitario
      ensures old(subtotal) == cantidad as real * preciounitario ==> subtotal == old(subtotal)
    {
      subtotal := cantidad as real * preciounitario;
    }
  }

  /** A line item saved for a cart row, with the row's quantity and the book's
      price as unit price, stores what the row costs. */
  lemma SubtotalComoDetalle(d: DetalleVenta, x: Carrito, l: Libro)
    requires d.cantidad == x.cantidad && d.preciounitario == l.precioventa
    requires d.subtotal == d.cantidad as real * d.preciounitario
    ensures d.subtotal == x.Subtotal(l)
  {
  }
}

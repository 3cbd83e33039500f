/** Stock movements and money arithmetic shared by the checkout, the
    cancellation, the admin sale entry and the totals pages.

    A stock movement is a sequence of (book, quantity) lines. Selling them
    lowers each book's stock line by line, cancelling them raises it again;
    both are folds over the lines in order, the way the request handlers'
    loops apply them. */
module Inventario {
  import opened Modelos

  /** A book and a number of copies moved into or out of stock. */
  datatype Linea = Linea(libro: LibroId, cantidad: int)

  /** The lines a cart moves: one per row, in order. */
  function LineasCarrito(items: seq<Carrito>): seq<Linea>
  {
    seq(|items|, k requires 0 <= k < |items| => Linea(items[k].libro, items[k].cantidad))
  }

  /** The lines a sale moves: one per line item, in order. */
  function LineasVenta(ds: seq<DetalleVenta>): seq<Linea>
  {
    seq(|ds|, k requires 0 <= k < |ds| => Linea(ds[k].libro, ds[k].cantidad))
  }

  /** No book appears on two lines. */
  ghost predicate LibrosDistintos(ls: seq<Linea>)
  {
    forall i, j :: 0 <= i < j < |ls| ==> ls[i].libro != ls[j].libro
  }

  /** Every line names a book of a catalogue of `n` books. */
  ghost predicate LineasEnCatalogo(ls: seq<Linea>, n: nat)
  {
    forall k :: 0 <= k < |ls| ==> ls[k].libro < n
  }

  /** Copies of book `b` the lines move in total. */
  function Unidades(ls: seq<Linea>, b: LibroId): int
  {
    if ls == [] then 0
    else Unidades(ls[..|ls| - 1], b) + (if ls[|ls| - 1].libro == b then ls[|ls| - 1].cantidad else 0)
  }

  /** Copies the lines move in total, over all books. */
  function TotalUnidades(ls: seq<Linea>): int
  {
    if ls == [] then 0 else TotalUnidades(ls[..|ls| - 1]) + ls[|ls| - 1].cantidad
  }

  /** One stock write: book `b` gains `delta` copies (loses them if negative). */
  function Ajustar(L: seq<Libro>, b: LibroId, delta: int): (r: seq<Libro>)
    ensures |r| == |L|
  {
    if b < |L| then L[b := L[b].(stock := L[b].stock + delta)] else L
  }

  /** Stock after selling every line, one after the other. */
  function Descontar(L: seq<Libro>, ls: seq<Linea>): (r: seq<Libro>)
    ensures |r| == |L|
  {
    if ls == [] then L
    else Ajustar(Descontar(L, ls[..|ls| - 1]), ls[|ls| - 1].libro, -ls[|ls| - 1].cantidad)
  }

  /** Stock after putting back every line, one after the other. */
  function Reponer(L: seq<Libro>, ls: seq<Linea>): (r: seq<Libro>)
    ensures |r| == |L|
  {
    if ls == [] then L
    else Ajustar(Reponer(L, ls[..|ls| - 1]), ls[|ls| - 1].libro, ls[|ls| - 1].cantidad)
  }

  /** Selling lowers each book's stock by exactly the copies its lines name,
      and changes nothing else about the book. */
  lemma {:induction false} DescontarEn(L: seq<Libro>, ls: seq<Linea>, b: LibroId)
    requires b < |L|
    ensures Descontar(L, ls)[b] == L[b].(stock := L[b].stock - Unidades(ls, b))
  {
    if ls != [] {
      DescontarEn(L, ls[..|ls| - 1], b);
    }
  }

  /** Putting back raises each book's stock by exactly the copies its lines
      name, and changes nothing else about the book. */
  lemma {:induction false} ReponerEn(L: seq<Libro>, ls: seq<Linea>, b: LibroId)
    requires b < |L|
    ensures Reponer(L, ls)[b] == L[b].(stock := L[b].stock + Unidades(ls, b))
  {
    if ls != [] {
      ReponerEn(L, ls[..|ls| - 1], b);
    }
  }

  /** Selling one more line after `ls` is one more stock write. */
  lemma DescontarAgregar(L: seq<Libro>, ls: seq<Linea>, l: Linea)
    ensures Descontar(L, ls + [l]) == Ajustar(Descontar(L, ls), l.libro, -l.cantidad)
  {
    assert (ls + [l])[..|ls|] == ls;
  }

  /** Putting back what was sold restores the catalogue exactly. */
  lemma ReponerDeshaceDescontar(L: seq<Libro>, ls: seq<Linea>)
    ensures Reponer(Descontar(L, ls), ls) == L
  {
    var R := Reponer(Descontar(L, ls), ls);
    forall b | 0 <= b < |L|
      ensures R[b] == L[b]
    {
      DescontarEn(L, ls, b);
      ReponerEn(Descontar(L, ls), ls, b);
    }
  }

  /** Putting the same lines back twice adds their copies twice. */
  lemma ReponerDosVeces(L: seq<Libro>, ls: seq<Linea>, b: LibroId)
    requires b < |L|
    ensures Reponer(Reponer(L, ls), ls)[b].stock == L[b].stock + 2 * Unidades(ls, b)
  {
    ReponerEn(L, ls, b);
    ReponerEn(Reponer(L, ls), ls, b);
  }

  /** A book no line names moves no copies. */
  lemma {:induction false} UnidadesSinLinea(ls: seq<Linea>, b: LibroId)
    requires forall k :: 0 <= k < |ls| ==> ls[k].libro != b
    ensures Unidades(ls, b) == 0
  {
    if ls != [] {
      UnidadesSinLinea(ls[..|ls| - 1], b);
    }
  }

  /** When no book appears twice, a book moves exactly the copies of its one line. */
  lemma {:induction false} UnidadesLineaUnica(ls: seq<Linea>, i: nat)
    requires LibrosDistintos(ls)
    requires i < |ls|
    ensures Unidades(ls, ls[i].libro) == ls[i].cantidad
  {
    var n := |ls| - 1;
    var init := ls[..n];
    if i == n {
      UnidadesSinLinea(init, ls[i].libro);
    } else {
      assert init[i] == ls[i];
      UnidadesLineaUnica(init, i);
    }
  }

  /** Selling lines that each ask for no more than their book's stock, with
      no book on two lines, leaves no book that had stock with less than zero. */
  lemma DescontarConservaStock(L: seq<Libro>, ls: seq<Linea>)
    requires LibrosDistintos(ls)
    requires LineasEnCatalogo(ls, |L|)
    requires forall k :: 0 <= k < |ls| ==> ls[k].cantidad <= L[ls[k].libro].stock
    ensures forall b :: 0 <= b < |L| && L[b].stock >= 0 ==> Descontar(L, ls)[b].stock >= 0
  {
    forall b | 0 <= b < |L| && L[b].stock >= 0
      ensures Descontar(L, ls)[b].stock >= 0
    {
      DescontarEn(L, ls, b);
      if k :| 0 <= k < |ls| && ls[k].libro == b {
        UnidadesLineaUnica(ls, k);
      } else {
        UnidadesSinLinea(ls, b);
      }
    }
  }

  /** Extending a prefix of the lines by the next line adds that line's copies
      to its book's count. */
  lemma UnidadesSiguiente(ls: seq<Linea>, k: nat, c: LibroId)
    requires k < |ls|
    ensures Unidades(ls[..k + 1], c) == Unidades(ls[..k], c) + (if ls[k].libro == c then ls[k].cantidad else 0)
  {
    assert ls[..k + 1][..k] == ls[..k];
  }

  /** When no book repeats, the lines before line `k` do not name its book. */
  lemma LibroNoRepetido(ls: seq<Linea>, k: nat)
    requires LibrosDistintos(ls)
    requires k < |ls|
    ensures Unidades(ls[..k], ls[k].libro) == 0
  {
    forall j | 0 <= j < k
      ensures ls[..k][j].libro != ls[k].libro
    {
      assert ls[..k][j] == ls[j];
    }
    UnidadesSinLinea(ls[..k], ls[k].libro);
  }

  /** At book `c`, the stale write of line `k` agrees with selling the first
      `k + 1` lines (see `DescontarDesdeOriginal`). */
  lemma DescontarDesdeOriginalEn(L: seq<Libro>, ls: seq<Linea>, k: nat, c: LibroId)
    requires k < |ls| && ls[k].libro < |L| && c < |L|
    requires Unidades(ls[..k], ls[k].libro) == 0
    ensures Descontar(L, ls[..k + 1])[c]
      == Descontar(L, ls[..k])[ls[k].libro := L[ls[k].libro].(stock := L[ls[k].libro].stock - ls[k].cantidad)][c]
  {
    DescontarEn(L, ls[..k + 1], c);
    DescontarEn(L, ls[..k], c);
    UnidadesSiguiente(ls, k, c);
  }

  /** When the lines before line `k` do not name its book, writing that book
      as its original stock minus the line's quantity, as a handler holding
      the books it loaded before any write does, is the same as adjusting the
      current stock. */
  lemma DescontarDesdeOriginal(L: seq<Libro>, ls: seq<Linea>, k: nat)
    requires k < |ls| && ls[k].libro < |L|
    requires Unidades(ls[..k], ls[k].libro) == 0
    ensures Descontar(L, ls[..k + 1])
      == Descontar(L, ls[..k])[ls[k].libro := L[ls[k].libro].(stock := L[ls[k].libro].stock - ls[k].cantidad)]
  {
    var A := Descontar(L, ls[..k + 1]);
    var B := Descontar(L, ls[..k])[ls[k].libro := L[ls[k].libro].(stock := L[ls[k].libro].stock - ls[k].cantidad)];
    forall c | 0 <= c < |L|
      ensures A[c] == B[c]
    {
      DescontarDesdeOriginalEn(L, ls, k, c);
    }
    assert A == B;
  }

  /** Copies in stock over the whole catalogue. */
  function SumaStock(L: seq<Libro>): int
  {
    if L == [] then 0 else SumaStock(L[..|L| - 1]) + L[|L| - 1].stock
  }

  /** Price times stock over the whole catalogue. */
  function ValorInventario(L: seq<Libro>): real
  {
    if L == [] then 0.0
    else ValorInventario(L[..|L| - 1]) + L[|L| - 1].precioventa * L[|L| - 1].stock as real
  }

  /** One stock write changes the copies in stock by its delta and the
      inventory value by the book's price times that delta. */
  lemma {:induction false} AjustarTotales(L: seq<Libro>, b: LibroId, delta: int)
    requires b < |L|
    ensures SumaStock(Ajustar(L, b, delta)) == SumaStock(L) + delta
    ensures ValorInventario(Ajustar(L, b, delta)) == ValorInventario(L) + L[b].precioventa * delta as real
  {
    var n := |L| - 1;
    var A := Ajustar(L, b, delta);
    if b == n {
      assert A[..n] == L[..n];
    } else {
      assert A[..n] == Ajustar(L[..n], b, delta);
      AjustarTotales(L[..n], b, delta);
    }
  }

  /** Selling lines that name catalogue books removes exactly their copies
      from the catalogue's stock. */
  lemma {:induction false} SumaStockDescontar(L: seq<Libro>, ls: seq<Linea>)
    requires LineasEnCatalogo(ls, |L|)
    ensures SumaStock(Descontar(L, ls)) == SumaStock(L) - TotalUnidades(ls)
  {
    if ls != [] {
      var n := |ls| - 1;
      SumaStockDescontar(L, ls[..n]);
      AjustarTotales(Descontar(L, ls[..n]), ls[n].libro, -ls[n].cantidad);
    }
  }

  /** Every cart row names a catalogue book. */
  ghost predicate EnCatalogo(items: seq<Carrito>, n: nat)
  {
    forall k :: 0 <= k < |items| ==> items[k].libro < n
  }

  /** What the rows cost at the catalogue's current prices: the sum of their
      subtotals, accumulated in order. */
  function Importe(L: seq<Libro>, items: seq<Carrito>): real
    requires EnCatalogo(items, |L|)
  {
    if items == [] then 0.0
    else
      var x := items[|items| - 1];
      Importe(L, items[..|items| - 1]) + x.Subtotal(L[x.libro])
  }

  /** Extending a prefix of the rows by the next row adds that row's subtotal. */
  lemma ImporteSiguiente(L: seq<Libro>, items: seq<Carrito>, k: nat)
    requires EnCatalogo(items, |L|)
    requires k < |items|
    ensures EnCatalogo(items[..k], |L|) && EnCatalogo(items[..k + 1], |L|)
    ensures Importe(L, items[..k + 1]) == Importe(L, items[..k]) + items[k].Subtotal(L[items[k].libro])
  {
    assert items[..k + 1][..k] == items[..k];
  }

  /** A subtotal plus its 16% tax. */
  function ConIva(subtotal: real): real
  {
    subtotal + subtotal * IVA
  }

  /** Rows with non-negative quantities of books with non-negative prices
      cost nothing negative, and the taxed total is at least the subtotal. */
  lemma {:induction false} ImporteNoNegativo(L: seq<Libro>, items: seq<Carrito>)
    requires EnCatalogo(items, |L|)
    requires forall k :: 0 <= k < |items| ==> items[k].cantidad >= 0 && L[items[k].libro].precioventa >= 0.0
    ensures Importe(L, items) >= 0.0
    ensures ConIva(Importe(L, items)) >= Importe(L, items)
  {
    if items != [] {
      var x := items[|items| - 1];
      ImporteNoNegativo(L, items[..|items| - 1]);
      assert L[x.libro].precioventa * x.cantidad as real >= 0.0;
    }
  }

  /** Taking `q` copies of book `b` out of stock lowers the inventory value
      by the book's price times `q`. */
  lemma ValorTrasDescuento(D: seq<Libro>, x: Carrito, l: Libro)
    requires x.libro < |D| && D[x.libro].precioventa == l.precioventa
    ensures ValorInventario(Ajustar(D, x.libro, -x.cantidad)) == ValorInventario(D) - x.Subtotal(l)
  {
    AjustarTotales(D, x.libro, -x.cantidad);
    assert l.precioventa * (-x.cantidad) as real == -(l.precioventa * x.cantidad as real);
  }

  /** Selling a cart lowers the inventory value by exactly what the cart
      costs before tax. */
  lemma {:induction false} ValorTrasVenta(L: seq<Libro>, items: seq<Carrito>)
    requires EnCatalogo(items, |L|)
    ensures ValorInventario(Descontar(L, LineasCarrito(items))) == ValorInventario(L) - Importe(L, items)
  {
    if items != [] {
      var n := |items| - 1;
      var x := items[n];
      var D := Descontar(L, LineasCarrito(items[..n]));
      ValorTrasVenta(L, items[..n]);
      assert LineasCarrito(items)[..n] == LineasCarrito(items[..n]);
      DescontarEn(L, LineasCarrito(items[..n]), x.libro);
      ValorTrasDescuento(D, x, L[x.libro]);
    }
  }

  /** Sum of the stored subtotals of line items, in order. */
  function SumaSubtotales(ds: seq<DetalleVenta>): real
    reads ds
  {
    if ds == [] then 0.0 else SumaSubtotales(ds[..|ds| - 1]) + ds[|ds| - 1].subtotal
  }

  /** Line items saved for the rows, one for one, with each row's quantity
      and its book's price, add up
      to what the rows cost: the checkout's sale lines sum to the cart. */
  lemma {:induction false} SumaSubtotalesDeFilas(ds: seq<DetalleVenta>, L: seq<Libro>, items: seq<Carrito>)
    requires EnCatalogo(items, |L|) && |ds| == |items|
    requires forall k :: 0 <= k < |ds| ==>
      ds[k].cantidad == items[k].cantidad && ds[k].preciounitario == L[items[k].libro].precioventa
      && ds[k].subtotal == ds[k].cantidad as real * ds[k].preciounitario
    ensures SumaSubtotales(ds) == Importe(L, items)
  {
    if ds != [] {
      var n := |ds| - 1;
      assert EnCatalogo(items[..n], |L|);
      SumaSubtotalesDeFilas(ds[..n], L, items[..n]);
      SubtotalComoDetalle(ds[n], items[n], L[items[n].libro]);
    }
  }

  /** The book listing: ids in increasing order of the books in stock, or,
      when only out-of-stock books are asked for, of those with stock zero. */
  function Catalogo(L: seq<Libro>, soloSinStock: bool): (r: seq<LibroId>)
    ensures forall b: LibroId :: b in r <==> b < |L| && (if soloSinStock then L[b].stock == 0 else L[b].Disponible())
    ensures forall i, j :: 0 <= i < j < |r| ==> r[i] < r[j]
  {
    if L == [] then []
    else
      var n := |L| - 1;
      var r := Catalogo(L[..n], soloSinStock);
      var incluir := if soloSinStock then L[n].stock == 0 else L[n].Disponible();
      assert forall i :: 0 <= i < |r| ==> r[i] in r;
      r + (if incluir then [n] else [])
  }

  /** The two listings never share a book, and together they miss exactly
      the books whose stock is below zero. */
  lemma CatalogosDisjuntos(L: seq<Libro>, b: LibroId)
    requires b < |L|
    ensures !(b in Catalogo(L, true) && b in Catalogo(L, false))
    ensures b !in Catalogo(L, true) && b !in Catalogo(L, false) <==> L[b].stock < 0
  {
  }
}

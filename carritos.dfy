/** The cart table: the rows of all users, the integrity the table keeps, and
    the per-user selections the cart and checkout pages work on. */
module Carritos {
  import opened Modelos
  import opened Inventario

  /** Two rows differ in id and do not hold the same book for the same user. */
  predicate ClavesDistintas(x: Carrito, y: Carrito)
  {
    x.carritoid != y.carritoid && (x.usuario != y.usuario || x.libro != y.libro)
  }

  /** Row ids are unique, and so are (user, book) pairs. */
  ghost predicate ClavesUnicas(c: seq<Carrito>)
  {
    forall i, j :: 0 <= i < j < |c| ==> ClavesDistintas(c[i], c[j])
  }

  /** The cart table's integrity: unique keys, every row names one of the
      `nLibros` books, holds at least one copy, and has an id below the next
      id to hand out. */
  ghost predicate CarritoValido(c: seq<Carrito>, nLibros: nat, siguiente: nat)
  {
    && ClavesUnicas(c)
    && forall i :: 0 <= i < |c| ==> c[i].libro < nLibros && c[i].cantidad >= 1 && c[i].carritoid < siguiente
  }

  /** The user already has a row for the book. */
  ghost predicate TieneEntrada(c: seq<Carrito>, u: UsuarioId, b: LibroId)
  {
    exists i :: 0 <= i < |c| && c[i].usuario == u && c[i].libro == b
  }

  /** The rows of user `u` when `propios` holds, the rows of every other user
      otherwise; in table order either way. */
  function Filtrar(c: seq<Carrito>, u: UsuarioId, propios: bool): (r: seq<Carrito>)
    ensures forall x :: x in r <==> x in c && (x.usuario == u) == propios
    ensures forall k :: 0 <= k < |r| ==> r[k] in c && (r[k].usuario == u) == propios
    ensures |r| <= |c|
  {
    if c == [] then []
    else (if (c[0].usuario == u) == propios then [c[0]] else []) + Filtrar(c[1..], u, propios)
  }

  /** A selection of a table with unique keys has unique keys. */
  lemma {:induction false} FiltrarConservaClaves(c: seq<Carrito>, u: UsuarioId, propios: bool)
    requires ClavesUnicas(c)
    ensures ClavesUnicas(Filtrar(c, u, propios))
  {
    if c != [] {
      var resto := Filtrar(c[1..], u, propios);
      assert ClavesUnicas(c[1..]) by {
        forall i, j | 0 <= i < j < |c[1..]|
          ensures ClavesDistintas(c[1..][i], c[1..][j])
        {
          assert c[1..][i] == c[i + 1] && c[1..][j] == c[j + 1];
        }
      }
      FiltrarConservaClaves(c[1..], u, propios);
      if (c[0].usuario == u) == propios {
        forall j | 0 <= j < |resto|
          ensures ClavesDistintas(c[0], resto[j])
        {
          assert resto[j] in resto;
          var k :| 0 <= k < |c[1..]| && c[1..][k] == resto[j];
          assert c[k + 1] == resto[j];
        }
        assert Filtrar(c, u, propios) == [c[0]] + resto;
      }
    }
  }

  /** Selection keeps the table's integrity. */
  lemma FiltrarConservaValidez(c: seq<Carrito>, nLibros: nat, siguiente: nat, u: UsuarioId, propios: bool)
    requires CarritoValido(c, nLibros, siguiente)
    ensures CarritoValido(Filtrar(c, u, propios), nLibros, siguiente)
  {
    FiltrarConservaClaves(c, u, propios);
    var r := Filtrar(c, u, propios);
    forall k | 0 <= k < |r|
      ensures r[k].libro < nLibros && r[k].cantidad >= 1 && r[k].carritoid < siguiente
    {
      var j :| 0 <= j < |c| && c[j] == r[k];
    }
  }

  /** One user's rows name each book at most once. */
  lemma LibrosDistintosPropios(c: seq<Carrito>, u: UsuarioId)
    requires ClavesUnicas(c)
    ensures LibrosDistintos(LineasCarrito(Filtrar(c, u, true)))
  {
    var r := Filtrar(c, u, true);
    FiltrarConservaClaves(c, u, true);
    forall i, j | 0 <= i < j < |r|
      ensures r[i].libro != r[j].libro
    {
      assert r[i] in r && r[j] in r;
      assert ClavesDistintas(r[i], r[j]);
    }
  }

  /** A table with no row of user `u` gives `u` an empty selection. */
  lemma {:induction false} SinFilasPropias(c: seq<Carrito>, u: UsuarioId)
    requires forall x :: x in c ==> x.usuario != u
    ensures Filtrar(c, u, true) == []
  {
    if c != [] {
      assert c[0] in c;
      assert forall x :: x in c[1..] ==> x in c;
      SinFilasPropias(c[1..], u);
    }
  }

  /** Once a user's rows are removed, the user has none left. */
  lemma QuitarPropiosVacia(c: seq<Carrito>, u: UsuarioId)
    ensures Filtrar(Filtrar(c, u, false), u, true) == []
  {
    var otros := Filtrar(c, u, false);
    forall x | x in otros
      ensures x.usuario != u
    {
    }
    SinFilasPropias(otros, u);
  }

  /** Deleting one row keeps the table's integrity. */
  lemma QuitarConservaValidez(c: seq<Carrito>, nLibros: nat, siguiente: nat, i: nat)
    requires CarritoValido(c, nLibros, siguiente)
    requires i < |c|
    ensures CarritoValido(c[..i] + c[i + 1..], nLibros, siguiente)
  {
    var r := c[..i] + c[i + 1..];
    forall p, q | 0 <= p < q < |r|
      ensures ClavesDistintas(r[p], r[q])
    {
      var p' := if p < i then p else p + 1;
      var q' := if q < i then q else q + 1;
      assert r[p] == c[p'] && r[q] == c[q'];
    }
    forall k | 0 <= k < |r|
      ensures r[k] == c[if k < i then k else k + 1]
    {
    }
  }

  /** Changing a row's quantity to another positive one keeps the table's integrity. */
  lemma CambiarCantidadConservaValidez(c: seq<Carrito>, nLibros: nat, siguiente: nat, i: nat, cantidad: int)
    requires CarritoValido(c, nLibros, siguiente)
    requires i < |c| && cantidad >= 1
    ensures CarritoValido(c[i := c[i].(cantidad := cantidad)], nLibros, siguiente)
  {
  }

  /** Adding a row with the next id, for a (user, book) pair the table does
      not hold yet, keeps the table's integrity with the id counter advanced. */
  lemma AgregarConservaValidez(c: seq<Carrito>, nLibros: nat, siguiente: nat, x: Carrito)
    requires CarritoValido(c, nLibros, siguiente)
    requires x.carritoid == siguiente && x.libro < nLibros && x.cantidad >= 1
    requires !TieneEntrada(c, x.usuario, x.libro)
    ensures CarritoValido(c + [x], nLibros, siguiente + 1)
  {
    var r := c + [x];
    forall p, q | 0 <= p < q < |r|
      ensures ClavesDistintas(r[p], r[q])
    {
      if q == |c| {
        assert r[p] == c[p];
      }
    }
  }
}

/**
  The library view (`BibliotecaJuegos`): the status-and-search filter over
  the loaded games and the four header counters. The view state (`filtro`,
  `busqueda`) is passed in; the ordering stage is in module Orden.
 */
module Biblioteca {
  import opened Juegos
  import opened Texto

  /**
    The `.filter` callback as written: a game whose status does not match a
    status filter is rejected first; only then is a non-empty search term
    looked for, lowercased, in the lowercased title, developer and genre.
   */
  predicate KeepsGame(g: Game, filtro: string, busqueda: string) {
    if filtro != Todos && g.estado != filtro then false
    else if busqueda != "" then
      var termino := ToLowerCase(busqueda);
      Includes(ToLowerCase(g.titulo), termino)
      || Includes(ToLowerCase(g.desarrolladora), termino)
      || Includes(ToLowerCase(g.genero), termino)
    else true
  }

  /** The status constraint on its own. */
  predicate StatusMatches(g: Game, filtro: string) {
    filtro == Todos || g.estado == filtro
  }

  /** `termino` occurs in `campo`, ignoring ASCII case. */
  ghost predicate ContainsIgnoringCase(campo: string, termino: string) {
    exists i :: OccursAt(ToLowerCase(campo), ToLowerCase(termino), i)
  }

  /** The search constraint on its own: no term, or a field that contains it. */
  ghost predicate SearchMatches(g: Game, busqueda: string) {
    busqueda == ""
    || ContainsIgnoringCase(g.titulo, busqueda)
    || ContainsIgnoringCase(g.desarrolladora, busqueda)
    || ContainsIgnoringCase(g.genero, busqueda)
  }

  /** `juegosFiltrados`: the kept games, in library order. */
  function JuegosFiltrados(juegos: seq<Game>, filtro: string, busqueda: string): (r: seq<Game>)
    ensures |r| <= |juegos|
    ensures forall g :: g in r <==> g in juegos && KeepsGame(g, filtro, busqueda)
  {
    if juegos == [] then []
    else
      var previos := juegos[..|juegos| - 1];
      var g := juegos[|juegos| - 1];
      assert juegos == previos + [g];
      JuegosFiltrados(previos, filtro, busqueda) + (if KeepsGame(g, filtro, busqueda) then [g] else [])
  }

  /** The positions of the kept games, in increasing order. */
  function KeptIndices(juegos: seq<Game>, filtro: string, busqueda: string): (idx: seq<nat>)
    ensures forall k :: 0 <= k < |idx| ==> idx[k] < |juegos|
  {
    if juegos == [] then []
    else
      var n := |juegos| - 1;
      KeptIndices(juegos[..n], filtro, busqueda) + (if KeepsGame(juegos[n], filtro, busqueda) then [n] else [])
  }

  /** `r` is `s` at the strictly increasing positions `idx`. */
  ghost predicate SelectedAt(r: seq<Game>, s: seq<Game>, idx: seq<nat>) {
    && |idx| == |r|
    && (forall k :: 0 <= k < |idx| ==> idx[k] < |s| && s[idx[k]] == r[k])
    && (forall k, l :: 0 <= k < l < |idx| ==> idx[k] < idx[l])
  }

  /** The kept positions are exactly those whose game the callback keeps. */
  lemma {:induction false} KeptIndicesExact(juegos: seq<Game>, filtro: string, busqueda: string)
    ensures forall i :: 0 <= i < |juegos| ==>
              (i in KeptIndices(juegos, filtro, busqueda) <==> KeepsGame(juegos[i], filtro, busqueda))
  {
    if juegos != [] {
      var n := |juegos| - 1;
      var previos := juegos[..n];
      KeptIndicesExact(previos, filtro, busqueda);
      var idx0 := KeptIndices(previos, filtro, busqueda);
      assert n !in idx0;
      forall i | 0 <= i < n
        ensures juegos[i] == previos[i]
      {
      }
    }
  }

  /**
    The filter is an order-preserving selection: the result lists the input
    at the kept positions, which increase.
   */
  lemma {:induction false} FilterSelectsInOrder(juegos: seq<Game>, filtro: string, busqueda: string)
    ensures SelectedAt(JuegosFiltrados(juegos, filtro, busqueda), juegos, KeptIndices(juegos, filtro, busqueda))
  {
    if juegos != [] {
      var n := |juegos| - 1;
      var previos := juegos[..n];
      var g := juegos[n];
      FilterSelectsInOrder(previos, filtro, busqueda);
      var r0 := JuegosFiltrados(previos, filtro, busqueda);
      var idx0 := KeptIndices(previos, filtro, busqueda);
      var r := JuegosFiltrados(juegos, filtro, busqueda);
      var idx := KeptIndices(juegos, filtro, busqueda);
      assert r == r0 + (if KeepsGame(g, filtro, busqueda) then [g] else []);
      assert idx == idx0 + (if KeepsGame(g, filtro, busqueda) then [n] else []);
      forall k | 0 <= k < |idx|
        ensures idx[k] < |juegos| && juegos[idx[k]] == r[k]
      {
        if k < |idx0| {
          assert idx[k] == idx0[k] && r[k] == r0[k];
          assert juegos[idx0[k]] == previos[idx0[k]];
        }
      }
    }
  }

  /** With status `todos` and no search term the library is shown unchanged. */
  lemma {:induction false} FilterAllIsIdentity(juegos: seq<Game>)
    ensures JuegosFiltrados(juegos, Todos, "") == juegos
  {
    if juegos != [] {
      FilterAllIsIdentity(juegos[..|juegos| - 1]);
    }
  }

  /**
    Status and search are ANDed: a game is kept exactly when its status
    passes the status filter and the search term (if any) occurs in its
    title, developer or genre. Searching never overrides the status filter.
   */
  lemma StatusAndSearchAreAnded(juegos: seq<Game>, filtro: string, busqueda: string, g: Game)
    ensures (g in JuegosFiltrados(juegos, filtro, busqueda))
        <==> (g in juegos && StatusMatches(g, filtro) && SearchMatches(g, busqueda))
  {
    var termino := ToLowerCase(busqueda);
    IncludesIffOccurs(ToLowerCase(g.titulo), termino);
    IncludesIffOccurs(ToLowerCase(g.desarrolladora), termino);
    IncludesIffOccurs(ToLowerCase(g.genero), termino);
  }

  /** The search ignores the case of the term. */
  lemma SearchIgnoresTermCase(juegos: seq<Game>, filtro: string, busqueda: string)
    ensures JuegosFiltrados(juegos, filtro, busqueda) == JuegosFiltrados(juegos, filtro, ToLowerCase(busqueda))
  {
    ToLowerCaseIdempotent(busqueda);
    forall g ensures KeepsGame(g, filtro, busqueda) == KeepsGame(g, filtro, ToLowerCase(busqueda)) {
    }
    FilterPointwise(juegos, filtro, busqueda, ToLowerCase(busqueda));
  }

  /** Two search terms that keep the same games give the same list. */
  lemma {:induction false} FilterPointwise(juegos: seq<Game>, filtro: string, b1: string, b2: string)
    requires forall g :: KeepsGame(g, filtro, b1) == KeepsGame(g, filtro, b2)
    ensures JuegosFiltrados(juegos, filtro, b1) == JuegosFiltrados(juegos, filtro, b2)
  {
    if juegos != [] {
      FilterPointwise(juegos[..|juegos| - 1], filtro, b1, b2);
    }
  }

  // ------------------------------------------------------------ counters

  /** `juegosState.filter(j => j.estado === estado).length`. */
  function CountEstado(juegos: seq<Game>, estado: string): (n: nat)
    ensures n <= |juegos|
  {
    if juegos == [] then 0
    else CountEstado(juegos[..|juegos| - 1], estado) + (if juegos[|juegos| - 1].estado == estado then 1 else 0)
  }

  /** `juegosState.reduce((total, j) => total + j.horasJugadas, 0)`, folded from the left. */
  function TotalHoras(juegos: seq<Game>): real
  {
    if juegos == [] then 0.0 else TotalHoras(juegos[..|juegos| - 1]) + juegos[|juegos| - 1].horasJugadas
  }

  /** The completed counter counts what the status filter `Completado` shows. */
  lemma {:induction false} CountIsFilterLength(juegos: seq<Game>, estado: string)
    requires estado != Todos
    ensures CountEstado(juegos, estado) == |JuegosFiltrados(juegos, estado, "")|
  {
    if juegos != [] {
      CountIsFilterLength(juegos[..|juegos| - 1], estado);
    }
  }

  /** The hour total distributes over concatenation of libraries. */
  lemma {:induction false} TotalHorasAppend(a: seq<Game>, b: seq<Game>)
    ensures TotalHoras(a + b) == TotalHoras(a) + TotalHoras(b)
    decreases |b|
  {
    if b != [] {
      var b0 := b[..|b| - 1];
      assert (a + b)[..|a + b| - 1] == a + b0;
      TotalHorasAppend(a, b0);
    } else {
      assert a + b == a;
    }
  }

  /** With no negative hours, the total is at least any single game's hours. */
  lemma {:induction false} TotalHorasBounds(juegos: seq<Game>)
    requires forall g :: g in juegos ==> g.horasJugadas >= 0.0
    ensures TotalHoras(juegos) >= 0.0
    ensures forall g :: g in juegos ==> g.horasJugadas <= TotalHoras(juegos)
  {
    if juegos != [] {
      var previos := juegos[..|juegos| - 1];
      assert forall g :: g in juegos ==> g in previos || g == juegos[|juegos| - 1];
      TotalHorasBounds(previos);
    }
  }

  /** The header cards: Total juegos, Completados, Horas totales, Filtrados. */
  datatype Header = Header(totalJuegos: nat, completados: nat, horasTotales: real, filtrados: nat)

  function Encabezado(juegos: seq<Game>, filtro: string, busqueda: string): (h: Header)
    ensures h.completados <= h.totalJuegos
    ensures h.filtrados <= h.totalJuegos
    ensures juegos == [] ==> h == Header(0, 0, 0.0, 0)
    ensures filtro == Todos && busqueda == "" ==> h.filtrados == h.totalJuegos
    ensures h.totalJuegos == |juegos|
    ensures h.completados == CountEstado(juegos, Completado)
    ensures h.completados == |JuegosFiltrados(juegos, Completado, "")|
    ensures h.horasTotales == TotalHoras(juegos)
    ensures h.filtrados == |JuegosFiltrados(juegos, filtro, busqueda)|
  {
    FilterAllIsIdentity(juegos);
    CountIsFilterLength(juegos, Completado);
    Header(|juegos|, CountEstado(juegos, Completado), TotalHoras(juegos),
           |JuegosFiltrados(juegos, filtro, busqueda)|)
  }
}

/**
  The ordering stage of the library view: `[...juegosFiltrados].sort(cmp)`.
  The comparator is the `switch (orden)` callback; `Array.prototype.sort`
  is stable (ECMA-262, section 23.1.3.30 of the 2023 edition), so the copy
  is specified by a stable insertion sort, `SortBy`, and the method sorts an
  array copy of the filtered list in place the same way.
 */
module Orden {
  import opened Juegos
  import opened Texto

  /**
    The comparator: a negative result puts `a` before `b`, a positive one
    `b` before `a`, zero keeps their order. Any other `orden` compares
    everything as equal.
   */
  function Comparar(orden: string, a: Game, b: Game): real
  {
    if orden == "recientes" then (b.fechaAgregado - a.fechaAgregado) as real
    else if orden == "antiguos" then (a.fechaAgregado - b.fechaAgregado) as real
    else if orden == "titulo" then CodePointCompare(a.titulo, b.titulo) as real
    else if orden == "puntuacion" then (b.puntuacion - a.puntuacion) as real
    else if orden == "horas" then b.horasJugadas - a.horasJugadas
    else 0.0
  }

  lemma CompararAntisymmetric(orden: string, a: Game, b: Game)
    ensures Comparar(orden, a, b) == -Comparar(orden, b, a)
  {
    if orden == "titulo" {
      CodePointCompareAntisymmetric(a.titulo, b.titulo);
    }
  }

  lemma CompararTransitive(orden: string, a: Game, b: Game, c: Game)
    requires Comparar(orden, a, b) <= 0.0 && Comparar(orden, b, c) <= 0.0
    ensures Comparar(orden, a, c) <= 0.0
  {
    if orden == "titulo" {
      CodePointCompareTransitive(a.titulo, b.titulo, c.titulo);
    }
  }

  /** Neither game goes before the other. */
  predicate SameKey(orden: string, a: Game, b: Game) {
    Comparar(orden, a, b) == 0.0
  }

  lemma SameKeyTransitive(orden: string, a: Game, b: Game, c: Game)
    requires SameKey(orden, a, b) && SameKey(orden, b, c)
    ensures SameKey(orden, a, c)
  {
    CompararAntisymmetric(orden, a, b);
    CompararAntisymmetric(orden, b, c);
    CompararAntisymmetric(orden, a, c);
    CompararTransitive(orden, a, b, c);
    CompararTransitive(orden, c, b, a);
  }

  /** Every game may stand before every later one. */
  ghost predicate Sorted(orden: string, s: seq<Game>) {
    forall i, j :: 0 <= i < j < |s| ==> Comparar(orden, s[i], s[j]) <= 0.0
  }

  /** The games of `s` with the same key as `k`, in their order in `s`. */
  function SameKeyAs(orden: string, s: seq<Game>, k: Game): seq<Game>
  {
    if s == [] then []
    else SameKeyAs(orden, s[..|s| - 1], k) + (if SameKey(orden, s[|s| - 1], k) then [s[|s| - 1]] else [])
  }

  /** Stable insertion: `x` goes after the last game that may precede it. */
  function Insert(orden: string, t: seq<Game>, x: Game): seq<Game>
  {
    if t == [] || Comparar(orden, t[|t| - 1], x) <= 0.0 then t + [x]
    else Insert(orden, t[..|t| - 1], x) + [t[|t| - 1]]
  }

  /** The stable sort of `s` under the comparator of `orden`. */
  function SortBy(orden: string, s: seq<Game>): seq<Game>
  {
    if s == [] then [] else Insert(orden, SortBy(orden, s[..|s| - 1]), s[|s| - 1])
  }

  // ---------------------------------------------------------- permutation

  lemma {:induction false} InsertPermutes(orden: string, t: seq<Game>, x: Game)
    ensures multiset(Insert(orden, t, x)) == multiset(t) + multiset{x}
  {
    if t != [] && Comparar(orden, t[|t| - 1], x) > 0.0 {
      var t0 := t[..|t| - 1];
      InsertPermutes(orden, t0, x);
      assert t == t0 + [t[|t| - 1]];
    }
  }

  lemma {:induction false} SortByPermutes(orden: string, s: seq<Game>)
    ensures multiset(SortBy(orden, s)) == multiset(s)
  {
    if s != [] {
      var s0 := s[..|s| - 1];
      SortByPermutes(orden, s0);
      InsertPermutes(orden, SortBy(orden, s0), s[|s| - 1]);
      assert s == s0 + [s[|s| - 1]];
    }
  }

  // ----------------------------------------------------------- sortedness

  lemma SortedSnoc(orden: string, u: seq<Game>, y: Game)
    requires Sorted(orden, u)
    requires forall e :: e in u ==> Comparar(orden, e, y) <= 0.0
    ensures Sorted(orden, u + [y])
  {
    forall i, j | 0 <= i < j < |u| + 1
      ensures Comparar(orden, (u + [y])[i], (u + [y])[j]) <= 0.0
    {
      if j == |u| {
        assert (u + [y])[i] in u;
      }
    }
  }

  lemma {:induction false} InsertSorted(orden: string, t: seq<Game>, x: Game)
    requires Sorted(orden, t)
    ensures Sorted(orden, Insert(orden, t, x))
  {
    if t == [] {
      SortedSnoc(orden, t, x);
    } else {
      var last := t[|t| - 1];
      var t0 := t[..|t| - 1];
      if Comparar(orden, last, x) <= 0.0 {
        forall e | e in t
          ensures Comparar(orden, e, x) <= 0.0
        {
          var i :| 0 <= i < |t| && t[i] == e;
          if i < |t| - 1 {
            CompararTransitive(orden, e, last, x);
          }
        }
        SortedSnoc(orden, t, x);
      } else {
        InsertSorted(orden, t0, x);
        InsertPermutes(orden, t0, x);
        forall e | e in Insert(orden, t0, x)
          ensures Comparar(orden, e, last) <= 0.0
        {
          assert e in multiset(Insert(orden, t0, x));
          if e == x {
            CompararAntisymmetric(orden, last, x);
          } else {
            assert e in t0;
            var i :| 0 <= i < |t0| && t0[i] == e;
            assert t[i] == e;
          }
        }
        SortedSnoc(orden, Insert(orden, t0, x), last);
      }
    }
  }

  lemma {:induction false} SortBySorted(orden: string, s: seq<Game>)
    ensures Sorted(orden, SortBy(orden, s))
  {
    if s != [] {
      SortBySorted(orden, s[..|s| - 1]);
      InsertSorted(orden, SortBy(orden, s[..|s| - 1]), s[|s| - 1]);
    }
  }

  // ------------------------------------------------------------ stability

  lemma {:induction false} InsertStable(orden: string, t: seq<Game>, x: Game, k: Game)
    ensures SameKeyAs(orden, Insert(orden, t, x), k)
         == SameKeyAs(orden, t, k) + (if SameKey(orden, x, k) then [x] else [])
  {
    if t == [] || Comparar(orden, t[|t| - 1], x) <= 0.0 {
      assert (t + [x])[..|t|] == t;
    } else {
      var last := t[|t| - 1];
      var t0 := t[..|t| - 1];
      var u := Insert(orden, t0, x);
      InsertStable(orden, t0, x, k);
      assert (u + [last])[..|u|] == u;
      if SameKey(orden, x, k) && SameKey(orden, last, k) {
        CompararAntisymmetric(orden, x, k);
        SameKeyTransitive(orden, last, k, x);
        assert false;
      }
    }
  }

  lemma {:induction false} SortByStable(orden: string, s: seq<Game>, k: Game)
    ensures SameKeyAs(orden, SortBy(orden, s), k) == SameKeyAs(orden, s, k)
  {
    if s != [] {
      SortByStable(orden, s[..|s| - 1], k);
      InsertStable(orden, SortBy(orden, s[..|s| - 1]), s[|s| - 1], k);
    }
  }

  // ----------------------------------------------------- special orders

  /** An unrecognised `orden` compares everything as equal: nothing moves. */
  lemma {:induction false} UnknownOrderKeepsInput(orden: string, s: seq<Game>)
    requires orden !in ["recientes", "antiguos", "titulo", "puntuacion", "horas"]
    ensures SortBy(orden, s) == s
  {
    if s != [] {
      var s0 := s[..|s| - 1];
      UnknownOrderKeepsInput(orden, s0);
      assert s == s0 + [s[|s| - 1]];
    }
  }

  /** Dropping the last game of a sorted list leaves it sorted. */
  lemma SortedPrefix(orden: string, s: seq<Game>)
    requires s != [] && Sorted(orden, s)
    ensures Sorted(orden, s[..|s| - 1])
  {
    var s0 := s[..|s| - 1];
    forall i, j | 0 <= i < j < |s0|
      ensures Comparar(orden, s0[i], s0[j]) <= 0.0
    {
      assert s0[i] == s[i] && s0[j] == s[j];
    }
  }

  /** In a sorted list the last game may follow the one before it. */
  lemma SortedLastPair(orden: string, s: seq<Game>)
    requires |s| >= 2 && Sorted(orden, s)
    ensures Comparar(orden, s[|s| - 2], s[|s| - 1]) <= 0.0
  {
  }

  /** An already sorted list is left as it is. */
  lemma {:induction false} SortedIsFixpoint(orden: string, s: seq<Game>)
    requires Sorted(orden, s)
    ensures SortBy(orden, s) == s
  {
    if s != [] {
      var s0, x := s[..|s| - 1], s[|s| - 1];
      SortedPrefix(orden, s);
      SortedIsFixpoint(orden, s0);
      if |s| >= 2 {
        SortedLastPair(orden, s);
        assert s0[|s0| - 1] == s[|s| - 2];
      }
      assert Insert(orden, s0, x) == s0 + [x];
      assert s == s0 + [x];
    }
  }

  /** Sorting the sorted list again changes nothing. */
  lemma SortByIdempotent(orden: string, s: seq<Game>)
    ensures SortBy(orden, SortBy(orden, s)) == SortBy(orden, s)
  {
    SortBySorted(orden, s);
    SortedIsFixpoint(orden, SortBy(orden, s));
  }

  /** What sortedness means for each of the five keys. */
  lemma SortDirections(s: seq<Game>)
    ensures var r := SortBy("recientes", s);
      forall i, j :: 0 <= i < j < |r| ==> r[i].fechaAgregado >= r[j].fechaAgregado
    ensures var r := SortBy("antiguos", s);
      forall i, j :: 0 <= i < j < |r| ==> r[i].fechaAgregado <= r[j].fechaAgregado
    ensures var r := SortBy("titulo", s);
      forall i, j :: 0 <= i < j < |r| ==> CodePointCompare(r[i].titulo, r[j].titulo) <= 0
    ensures var r := SortBy("puntuacion", s);
      forall i, j :: 0 <= i < j < |r| ==> r[i].puntuacion >= r[j].puntuacion
    ensures var r := SortBy("horas", s);
      forall i, j :: 0 <= i < j < |r| ==> r[i].horasJugadas >= r[j].horasJugadas
  {
    SortBySorted("recientes", s);
    SortBySorted("antiguos", s);
    SortBySorted("titulo", s);
    SortBySorted("puntuacion", s);
    SortBySorted("horas", s);
  }

  // -------------------------------------------------------------- methods

  /**
    `Insert` puts `x` at position `j` when every game from `j` on must follow
    `x` and the game before `j`, if any, may precede it.
   */
  lemma {:induction false} InsertAt(orden: string, t: seq<Game>, x: Game, j: nat)
    requires j <= |t|
    requires forall k :: j <= k < |t| ==> Comparar(orden, t[k], x) > 0.0
    requires j == 0 || Comparar(orden, t[j - 1], x) <= 0.0
    ensures Insert(orden, t, x) == t[..j] + [x] + t[j..]
  {
    if j < |t| {
      var u := t[..|t| - 1];
      assert u[..j] == t[..j];
      assert j == 0 || u[j - 1] == t[j - 1];
      InsertAt(orden, u, x, j);
      assert u[j..] + [t[|t| - 1]] == t[j..];
    } else {
      assert t[..j] == t && t[j..] == [];
    }
  }

  /**
    One insertion step on the array: the game at index `i` moves left past
    every game of the sorted prefix `a[..i]` that must follow it.
   */
  method InsertInPlace(a: array<Game>, i: nat, orden: string)
    requires i < a.Length
    modifies a
    ensures a[..i + 1] == Insert(orden, old(a[..i]), old(a[i]))
    ensures forall k :: i < k < a.Length ==> a[k] == old(a[k])
  {
    ghost var t := a[..i];
    var x := a[i];
    var j := i;
    while j > 0 && Comparar(orden, a[j - 1], x) > 0.0
      invariant 0 <= j <= i
      invariant forall k :: 0 <= k < j ==> a[k] == t[k]
      invariant forall k :: j < k <= i ==> a[k] == t[k - 1]
      invariant forall k :: i < k < a.Length ==> a[k] == old(a[k])
      invariant forall k :: j <= k < i ==> Comparar(orden, t[k], x) > 0.0
    {
      a[j] := a[j - 1];
      j := j - 1;
    }
    a[j] := x;
    InsertAt(orden, t, x, j);
    ShiftedShape(a[..i + 1], t, x, j);
  }

  /** A sequence laid out as `t` with `x` slotted in at position `j`. */
  lemma ShiftedShape(s: seq<Game>, t: seq<Game>, x: Game, j: nat)
    requires j <= |t| && |s| == |t| + 1
    requires forall k :: 0 <= k < j ==> s[k] == t[k]
    requires s[j] == x
    requires forall k :: j < k < |s| ==> s[k] == t[k - 1]
    ensures s == t[..j] + [x] + t[j..]
  {
    var r := t[..j] + [x] + t[j..];
    forall k | 0 <= k < |s|
      ensures s[k] == r[k]
    {
      if k > j {
        assert r[k] == t[j..][k - j - 1] == t[k - 1];
      }
    }
  }

  /** The three promises of a stable sort, gathered for one input. */
  lemma SortByMeetsContract(orden: string, s: seq<Game>)
    ensures multiset(SortBy(orden, s)) == multiset(s)
    ensures Sorted(orden, SortBy(orden, s))
    ensures forall k :: SameKeyAs(orden, SortBy(orden, s), k) == SameKeyAs(orden, s, k)
  {
    SortByPermutes(orden, s);
    SortBySorted(orden, s);
    forall k
      ensures SameKeyAs(orden, SortBy(orden, s), k) == SameKeyAs(orden, s, k)
    {
      SortByStable(orden, s, k);
    }
  }

  /** Sorting one more game of the input is one more insertion. */
  lemma SortByStep(orden: string, f: seq<Game>, i: nat)
    requires i < |f|
    ensures SortBy(orden, f[..i + 1]) == Insert(orden, SortBy(orden, f[..i]), f[i])
  {
    assert f[..i + 1][..i] == f[..i];
  }

  /**
    `juegosOrdenados`: copies the filtered list into a fresh array and sorts
    the copy in place; the filtered list itself is a value and stays as it
    was. The result is a permutation of the input, ordered by the key, with
    games of equal key in their filtered order.
   */
  method JuegosOrdenados(filtrados: seq<Game>, orden: string) returns (r: seq<Game>)
    ensures r == SortBy(orden, filtrados)
    ensures multiset(r) == multiset(filtrados)
    ensures Sorted(orden, r)
    ensures forall k :: SameKeyAs(orden, r, k) == SameKeyAs(orden, filtrados, k)
  {
    var a := new Game[|filtrados|](i requires 0 <= i < |filtrados| => filtrados[i]);
    var i := 0;
    while i < a.Length
      invariant 0 <= i <= a.Length
      invariant a[..i] == SortBy(orden, filtrados[..i])
      invariant forall k :: i <= k < a.Length ==> a[k] == filtrados[k]
    {
      SortByStep(orden, filtrados, i);
      InsertInPlace(a, i, orden);
      i := i + 1;
    }
    assert filtrados[..a.Length] == filtrados;
    r := a[..];
    SortByMeetsContract(orden, filtrados);
  }
}

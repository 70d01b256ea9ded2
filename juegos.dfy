/**
  The game record as the front end receives it from the server, and the
  four play statuses the components compare against.
 */
module Juegos {

  datatype Option<T> = None | Some(value: T) {
    function GetOr(default: T): T {
      match this
      case Some(v) => v
      case None => default
    }
  }

  /** `estado` values used by the selects and lookup tables. */
  const PorJugar := "Por jugar"
  const Jugando := "Jugando"
  const Completado := "Completado"
  const Abandonado := "Abandonado"
  /** Sentinel of the status filter that lets every status through. */
  const Todos := "todos"

  /**
    A stored game. Dates the user may leave empty are optional; the
    `fechaAgregado` timestamp (milliseconds) is set by the server.
    `estado` is kept as text because the components fall back to a default
    for any value outside the four statuses.
   */
  datatype Game = Game(
    id: string,
    titulo: string,
    desarrolladora: string,
    genero: string,
    plataforma: string,
    anioLanzamiento: int,
    portada: string,
    estado: string,
    puntuacion: int,
    horasJugadas: real,
    fechaInicio: Option<string>,
    fechaFin: Option<string>,
    fechaAgregado: int
  )

  /** JavaScript truthiness of an optional text: present and non-empty. */
  predicate Truthy(s: Option<string>) {
    s.Some? && s.value != ""
  }

  /** Number of `true` flags, e.g. lit stars. */
  function CountTrue(flags: seq<bool>): (n: nat)
    ensures n <= |flags|
  {
    if flags == [] then 0 else CountTrue(flags[..|flags| - 1]) + (if flags[|flags| - 1] then 1 else 0)
  }

  /** `n` clamped to the range `lo..hi`. */
  function Clamp(n: int, lo: int, hi: int): int
    requires lo <= hi
  {
    if n < lo then lo else if n > hi then hi else n
  }

  /** Flags lit exactly below `p` count `p`, clamped to the number of flags. */
  lemma {:induction false} CountLitBelow(flags: seq<bool>, p: int)
    requires forall i :: 0 <= i < |flags| ==> flags[i] == (i < p)
    ensures CountTrue(flags) == Clamp(p, 0, |flags|)
  {
    if flags != [] {
      CountLitBelow(flags[..|flags| - 1], p);
    }
  }
}

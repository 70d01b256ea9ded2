/**
  The statistics dashboard (`EstadisticasPersonales`): the arithmetic it
  does on the aggregates the server sends. The aggregates themselves
  (totals, the most played game, the genre histogram, the review summary)
  are inputs; they are not computed on the client.
 */
module Estadisticas {
  import opened Juegos

  /** One bar of the server's genre histogram (`{_id, count}`). */
  datatype GenreCount = GenreCount(id: string, count: int)

  /** The server's game statistics. */
  datatype GameStats = GameStats(
    totalJuegos: int,
    juegosCompletados: int,
    juegosJugando: int,
    totalHoras: real,
    juegoMasJugado: Option<Game>,
    generosStats: seq<GenreCount>
  )

  /** One entry of the server's top-rated list. */
  datatype TopGame = TopGame(id: string, titulo: string, avgPuntuacion: real)

  /** The server's review statistics; the top-rated list may be absent. */
  datatype ReviewStats = ReviewStats(
    totalResenas: int,
    promedioPuntuacion: real,
    juegosMejorCalificados: Option<seq<TopGame>>
  )

  function Min(a: int, b: int): int {
    if a < b then a else b
  }

  // ---------------------------------------------------------- percentages

  /** `total > 0 ? (count / total) * 100 : 0`. */
  function Porcentaje(count: int, total: int): (r: real)
    ensures total > 0 ==> r * total as real == count as real * 100.0
    ensures total <= 0 ==> r == 0.0
    ensures 0 <= count <= total ==> 0.0 <= r <= 100.0
  {
    if total > 0 then
      var q := count as real / total as real;
      assert q * total as real == count as real;
      assert 0 <= count <= total ==> 0.0 <= q <= 1.0;
      q * 100.0
    else 0.0
  }

  /**
    `(count / total) * 100` with no guard. In JavaScript a zero total gives
    `NaN` or an infinity, neither a finite percentage: `None` here.
   */
  function Cociente(count: int, total: int): (r: Option<real>)
    ensures r.None? <==> total == 0
    ensures r.Some? ==> r.value * total as real == count as real * 100.0
  {
    if total == 0 then None
    else
      var q := count as real / total as real;
      assert q * total as real == count as real;
      Some(q * 100.0)
  }

  /** Where a total is positive, the guarded and the unguarded forms agree. */
  lemma CocienteIsPorcentaje(count: int, total: int)
    requires total > 0
    ensures Cociente(count, total) == Some(Porcentaje(count, total))
  {
  }

  /** The `Por jugar` bar counts what is neither completed nor being played. */
  function PorJugarCount(s: GameStats): (n: int)
    ensures n + s.juegosCompletados + s.juegosJugando == s.totalJuegos
  {
    s.totalJuegos - s.juegosCompletados - s.juegosJugando
  }

  /** The `Por jugar` percentage as written: divided by the total with no guard. */
  function PorcentajePorJugarAsWritten(s: GameStats): (r: Option<real>)
    ensures r.None? <==> s.totalJuegos == 0
  {
    Cociente(PorJugarCount(s), s.totalJuegos)
  }

  /** An empty library (total 0) makes the `Por jugar` bar show no number. */
  lemma PorJugarWithNoGames(s: GameStats)
    requires s.totalJuegos == 0
    ensures PorcentajePorJugarAsWritten(s).None?
    ensures PorcentajeCompletados(s) == 0.0 && PorcentajeJugando(s) == 0.0
  {
  }

  /** The `Por jugar` percentage, guarded like the other two bars. */
  function PorcentajePorJugar(s: GameStats): (r: real)
    ensures s.totalJuegos > 0 ==> Some(r) == PorcentajePorJugarAsWritten(s)
    ensures s.totalJuegos <= 0 ==> r == 0.0
  {
    if s.totalJuegos > 0 then
      CocienteIsPorcentaje(PorJugarCount(s), s.totalJuegos);
      Porcentaje(PorJugarCount(s), s.totalJuegos)
    else
      Porcentaje(PorJugarCount(s), s.totalJuegos)
  }

  function PorcentajeCompletados(s: GameStats): real {
    Porcentaje(s.juegosCompletados, s.totalJuegos)
  }

  function PorcentajeJugando(s: GameStats): real {
    Porcentaje(s.juegosJugando, s.totalJuegos)
  }

  /**
    With at least one game the three status bars share out 100%; with none
    every bar is 0.
   */
  lemma StatusBarsShareOut(s: GameStats)
    ensures s.totalJuegos > 0 ==>
      PorcentajeCompletados(s) + PorcentajeJugando(s) + PorcentajePorJugar(s) == 100.0
    ensures s.totalJuegos <= 0 ==>
      PorcentajeCompletados(s) == 0.0 && PorcentajeJugando(s) == 0.0 && PorcentajePorJugar(s) == 0.0
  {
    if s.totalJuegos > 0 {
      SharesOfWhole(PorcentajeCompletados(s), PorcentajeJugando(s), PorcentajePorJugar(s),
                    s.juegosCompletados as real, s.juegosJugando as real, PorJugarCount(s) as real,
                    s.totalJuegos as real);
    }
  }

  /** Three shares of a positive whole, as percentages, add up to 100. */
  lemma SharesOfWhole(a: real, b: real, c: real, x: real, y: real, z: real, t: real)
    requires t > 0.0 && x + y + z == t
    requires a * t == x * 100.0 && b * t == y * 100.0 && c * t == z * 100.0
    ensures a + b + c == 100.0
  {
    calc {
      (a + b + c) * t;
      a * t + b * t + c * t;
      x * 100.0 + y * 100.0 + z * 100.0;
      (x + y + z) * 100.0;
      100.0 * t;
    }
  }

  /**
    Every bar lies between 0% and 100% when the counts are consistent: none
    negative and together no more than the total.
   */
  lemma StatusBarsBounded(s: GameStats)
    requires 0 <= s.juegosCompletados && 0 <= s.juegosJugando
    requires s.juegosCompletados + s.juegosJugando <= s.totalJuegos
    ensures 0.0 <= PorcentajeCompletados(s) <= 100.0
    ensures 0.0 <= PorcentajeJugando(s) <= 100.0
    ensures 0.0 <= PorcentajePorJugar(s) <= 100.0
  {
  }

  // --------------------------------------------------------------- genres

  /** One shown genre row: name, count and bar width. */
  datatype GenreRow = GenreRow(nombre: string, count: int, porcentaje: Option<real>)

  /** The genre list: the first eight histogram bars, each as a share of all games. */
  function FilasGeneros(generos: seq<GenreCount>, totalJuegos: int): (r: seq<GenreRow>)
    ensures |r| == Min(|generos|, 8)
    ensures forall i :: 0 <= i < |r| ==>
      && r[i].nombre == generos[i].id
      && r[i].count == generos[i].count
      && r[i].porcentaje == Cociente(generos[i].count, totalJuegos)
  {
    var shown := generos[..Min(|generos|, 8)];
    seq(|shown|, i requires 0 <= i < |shown| =>
      GenreRow(shown[i].id, shown[i].count, Cociente(shown[i].count, totalJuegos)))
  }

  /** The `+N géneros más` note: present only past eight genres. */
  function MasGeneros(generos: seq<GenreCount>): (r: Option<nat>)
    ensures r.Some? <==> |generos| > 8
    ensures r.Some? ==> r.value > 0
  {
    if |generos| > 8 then Some(|generos| - 8) else None
  }

  /** The rows shown and the overflow note account for every genre once. */
  lemma GenresAccounted(generos: seq<GenreCount>, totalJuegos: int)
    ensures |FilasGeneros(generos, totalJuegos)| + MasGeneros(generos).GetOr(0) == |generos|
  {
  }

  // ------------------------------------------------------------ top rated

  /** `juegosMejorCalificados?.length || 0`. */
  function CantidadMejorCalificados(rs: ReviewStats): (n: nat)
    ensures rs.juegosMejorCalificados.None? ==> n == 0
    ensures rs.juegosMejorCalificados.Some? ==> n == |rs.juegosMejorCalificados.value|
  {
    match rs.juegosMejorCalificados
    case None => 0
    case Some(l) => |l|
  }

  /** One line of the top-rated list. */
  datatype TopRow = TopRow(rank: nat, titulo: string, avgPuntuacion: real)

  /** The top-rated list: the first three entries, ranked from 1 in the server's order. */
  function FilasTop(rs: ReviewStats): (r: seq<TopRow>)
    ensures |r| == Min(CantidadMejorCalificados(rs), 3)
    ensures forall i :: 0 <= i < |r| ==>
      && r[i].rank == i + 1
      && r[i].titulo == rs.juegosMejorCalificados.value[i].titulo
      && r[i].avgPuntuacion == rs.juegosMejorCalificados.value[i].avgPuntuacion
  {
    match rs.juegosMejorCalificados
    case None => []
    case Some(l) =>
      var shown := l[..Min(|l|, 3)];
      seq(|shown|, i requires 0 <= i < |shown| => TopRow(i + 1, shown[i].titulo, shown[i].avgPuntuacion))
  }

  // ---------------------------------------------------------------- goals

  /** A goal bar: `Math.min((valor / meta) * 100, 100)`. */
  function Progreso(valor: real, meta: real): (r: real)
    requires meta > 0.0
    ensures r <= 100.0
    ensures r == 100.0 <==> valor >= meta
    ensures valor < meta ==> r * meta == valor * 100.0
    ensures valor >= 0.0 ==> r >= 0.0
  {
    var q := valor / meta;
    assert q * meta == valor;
    assert q >= 1.0 <==> valor >= meta;
    if q * 100.0 < 100.0 then q * 100.0 else 100.0
  }

  const MetaCompletados := 10.0
  const MetaHoras := 100.0
  const MetaResenas := 5.0

  /** `estadisticasReseñas?.totalReseñas || 0`. */
  function ResenasEscritas(rs: Option<ReviewStats>): (n: int)
    ensures rs.None? ==> n == 0
    ensures rs.Some? ==> n == rs.value.totalResenas
  {
    match rs
    case None => 0
    case Some(r) => r.totalResenas
  }

  /** The three goal bars: ten completed games, a hundred hours, five reviews. */
  datatype Metas = Metas(completados: real, horas: real, resenas: real)

  function BarrasMetas(s: GameStats, rs: Option<ReviewStats>): (m: Metas)
    ensures m.completados <= 100.0 && m.horas <= 100.0 && m.resenas <= 100.0
    ensures m.completados == 100.0 <==> s.juegosCompletados >= 10
    ensures m.horas == 100.0 <==> s.totalHoras >= 100.0
    ensures m.resenas == 100.0 <==> ResenasEscritas(rs) >= 5
    ensures rs.None? ==> m.resenas == 0.0
    ensures m.completados == Progreso(s.juegosCompletados as real, MetaCompletados)
    ensures m.horas == Progreso(s.totalHoras, MetaHoras)
    ensures m.resenas == Progreso(ResenasEscritas(rs) as real, MetaResenas)
  {
    Metas(Progreso(s.juegosCompletados as real, MetaCompletados),
          Progreso(s.totalHoras, MetaHoras),
          Progreso(ResenasEscritas(rs) as real, MetaResenas))
  }

  // ------------------------------------------------------------ dashboard

  /** The review card, shown only when review statistics arrived. */
  datatype ReviewCard = ReviewCard(
    totalResenas: int,
    promedioPuntuacion: real,
    mejorCalificados: nat,
    top: seq<TopRow>
  )

  /** What the dashboard renders once loading is over. */
  datatype Panel =
    | SinEstadisticas
    | Panel(
        totalJuegos: int,
        juegosCompletados: int,
        juegosJugando: int,
        totalHoras: real,
        porcentajeCompletados: real,
        porcentajeJugando: real,
        porJugar: int,
        porcentajePorJugar: real,
        generos: seq<GenreRow>,
        masGeneros: Option<nat>,
        masJugado: Option<Game>,
        resenas: Option<ReviewCard>,
        metas: Metas
      )

  /**
    The dashboard: the empty state when no game statistics arrived, and
    otherwise the cards, bars, lists and goals computed from them. The
    `Por jugar` bar uses the guarded percentage, which agrees with the
    unguarded one whenever there is at least one game.
   */
  function Dashboard(stats: Option<GameStats>, rs: Option<ReviewStats>): (p: Panel)
    ensures p.SinEstadisticas? <==> stats.None?
    ensures p.Panel? ==> (p.resenas.Some? <==> rs.Some?)
    ensures p.Panel? ==> |p.generos| <= 8 && p.metas.resenas <= 100.0
    ensures p.Panel? && p.totalJuegos > 0 ==>
      p.porcentajeCompletados + p.porcentajeJugando + p.porcentajePorJugar == 100.0
    ensures p.Panel? ==> var s := stats.value;
      && p.totalJuegos == s.totalJuegos && p.juegosCompletados == s.juegosCompletados
      && p.juegosJugando == s.juegosJugando && p.totalHoras == s.totalHoras
      && p.porcentajeCompletados == PorcentajeCompletados(s)
      && p.porcentajeJugando == PorcentajeJugando(s)
      && p.porJugar == PorJugarCount(s)
      && p.porcentajePorJugar == PorcentajePorJugar(s)
      && (s.totalJuegos > 0 ==> PorcentajePorJugarAsWritten(s) == Some(p.porcentajePorJugar))
      && p.generos == FilasGeneros(s.generosStats, s.totalJuegos)
      && p.masGeneros == MasGeneros(s.generosStats)
      && p.masJugado == s.juegoMasJugado
      && p.metas == BarrasMetas(s, rs)
    ensures p.Panel? && rs.Some? ==> var r := rs.value;
      p.resenas == Some(ReviewCard(r.totalResenas, r.promedioPuntuacion,
                                   CantidadMejorCalificados(r), FilasTop(r)))
  {
    match stats
    case None => SinEstadisticas
    case Some(s) =>
      StatusBarsShareOut(s);
      Panel(
        s.totalJuegos, s.juegosCompletados, s.juegosJugando, s.totalHoras,
        PorcentajeCompletados(s), PorcentajeJugando(s),
        PorJugarCount(s), PorcentajePorJugar(s),
        FilasGeneros(s.generosStats, s.totalJuegos), MasGeneros(s.generosStats),
        s.juegoMasJugado,
        match rs
        case None => None
        case Some(r) => Some(ReviewCard(r.totalResenas, r.promedioPuntuacion,
                                        CantidadMejorCalificados(r), FilasTop(r))),
        BarrasMetas(s, rs)
      )
  }
}

/**
  The game card (`TarjetaJuego`): the status colour and icon tables, the
  five-star strip, and the conditions under which the rating text, the
  hours badge and the dates block are shown.
 */
module Tarjeta {
  import opened Juegos
  import opened Texto
  import Formulario

  const Gris := "#6b7280"
  const Azul := "#3b82f6"
  const Verde := "#10b981"
  const Rojo := "#ef4444"

  /** Status colour; any status outside the table gets the default grey. */
  function GetEstadoColor(estado: string): (r: string)
    ensures r in {Gris, Azul, Verde, Rojo}
    ensures estado == Jugando ==> r == Azul
    ensures estado == Completado ==> r == Verde
    ensures estado == Abandonado ==> r == Rojo
    ensures r == Gris <==> estado !in {Jugando, Completado, Abandonado}
  {
    if estado == PorJugar then Gris
    else if estado == Jugando then Azul
    else if estado == Completado then Verde
    else if estado == Abandonado then Rojo
    else Gris
  }

  /** Hourglass, gamepad, check mark and cross. */
  const RelojArena := "\U{23F3}"
  const Mando := "\U{1F3AE}"
  const Hecho := "\U{2705}"
  const Cruz := "\U{274C}"

  /** Status icon; any status outside the table gets the default gamepad. */
  function GetEstadoIcon(estado: string): (r: string)
    ensures r in {RelojArena, Mando, Hecho, Cruz}
    ensures estado == PorJugar ==> r == RelojArena
    ensures estado == Completado ==> r == Hecho
    ensures estado == Abandonado ==> r == Cruz
    ensures r == Mando <==> estado !in {PorJugar, Completado, Abandonado}
  {
    if estado == PorJugar then RelojArena
    else if estado == Jugando then Mando
    else if estado == Completado then Hecho
    else if estado == Abandonado then Cruz
    else Mando
  }

  /** The four statuses a game can be saved with. */
  predicate IsEstado(estado: string) {
    estado in {PorJugar, Jugando, Completado, Abandonado}
  }

  /**
    Between the four statuses the icons tell every status apart, and the
    colours every status apart; outside them a card looks like a
    `Por jugar` card in colour and like a `Jugando` card in icon.
   */
  lemma BadgeDistinguishesStatuses(a: string, b: string)
    requires IsEstado(a) && IsEstado(b)
    ensures GetEstadoIcon(a) == GetEstadoIcon(b) <==> a == b
    ensures GetEstadoColor(a) == GetEstadoColor(b) <==> a == b
  {
  }

  lemma UnknownStatusBadge(estado: string)
    requires !IsEstado(estado)
    ensures GetEstadoColor(estado) == GetEstadoColor(PorJugar)
    ensures GetEstadoIcon(estado) == GetEstadoIcon(Jugando)
  {
  }

  // ---------------------------------------------------------------- stars

  /** `renderEstrellas`: five stars, star `i` (from 0) filled when `i < puntuacion`. */
  function RenderEstrellas(puntuacion: int): (r: seq<bool>)
    ensures |r| == 5
    ensures forall i :: 0 <= i < 5 ==> (r[i] <==> i < puntuacion)
  {
    seq(5, i => i < puntuacion)
  }

  /** The number of filled stars is the rating clamped to 0..5. */
  lemma FilledStars(puntuacion: int)
    ensures CountTrue(RenderEstrellas(puntuacion)) == Clamp(puntuacion, 0, 5)
  {
    CountLitBelow(RenderEstrellas(puntuacion), puntuacion);
  }

  /** The card shows the same stars as the form's picker at rest. */
  lemma CardMatchesForm(puntuacion: int)
    ensures RenderEstrellas(puntuacion) == Formulario.RenderStars(0, puntuacion)
  {
  }

  // ---------------------------------------------------------- rating text

  const SinPuntuar := "Sin puntuar"

  /** The rating text: `"<n>/5"` for a positive rating, `Sin puntuar` otherwise. */
  function TextoPuntuacion(puntuacion: int): (r: string)
    ensures r == SinPuntuar <==> puntuacion <= 0
    ensures puntuacion > 0 ==> |r| >= 3 && r[|r| - 2..] == "/5"
    ensures puntuacion > 0 ==> r == NatToString(puntuacion) + "/5"
  {
    if puntuacion > 0 then
      var n := NatToString(puntuacion);
      assert (n + "/5")[0] == n[0] && IsDigit(n[0]) && !IsDigit(SinPuntuar[0]);
      n + "/5"
    else SinPuntuar
  }

  /** The number before `/5` reads back as the rating. */
  lemma TextoPuntuacionReadsBack(puntuacion: int)
    requires puntuacion > 0
    ensures var r := TextoPuntuacion(puntuacion);
      && (forall i :: 0 <= i < |r| - 2 ==> IsDigit(r[i]))
      && r[0] != '0'
      && DecimalValue(r[..|r| - 2]) == puntuacion
  {
    var r := TextoPuntuacion(puntuacion);
    assert r[..|r| - 2] == NatToString(puntuacion);
    DecimalRoundTrip(puntuacion);
  }

  // ----------------------------------------------------------------- card

  /** The date lines the dates block holds. */
  datatype Fechas = Fechas(inicio: bool, fin: bool)

  /** The parts of a card that depend on the game, beyond its plain fields. */
  datatype Card = Card(
    color: string,
    icono: string,
    estrellas: seq<bool>,
    puntuacion: string,
    horas: Option<real>,
    fechas: Option<Fechas>
  )

  /** The card for game `g`. */
  function Tarjeta(g: Game): (c: Card)
    ensures c.color == GetEstadoColor(g.estado) && c.icono == GetEstadoIcon(g.estado)
    ensures c.estrellas == RenderEstrellas(g.puntuacion)
    ensures CountTrue(c.estrellas) == Clamp(g.puntuacion, 0, 5)
    ensures c.puntuacion == TextoPuntuacion(g.puntuacion)
    ensures c.puntuacion == SinPuntuar <==> g.puntuacion <= 0
    ensures c.horas.Some? <==> g.horasJugadas > 0.0
    ensures c.horas.Some? ==> c.horas.value == g.horasJugadas
    ensures c.fechas.Some? <==> Truthy(g.fechaInicio) || Truthy(g.fechaFin)
    ensures c.fechas.Some? ==>
      && (c.fechas.value.inicio <==> Truthy(g.fechaInicio))
      && (c.fechas.value.fin <==> Truthy(g.fechaFin))
      && (c.fechas.value.inicio || c.fechas.value.fin)
  {
    FilledStars(g.puntuacion);
    Card(
      GetEstadoColor(g.estado),
      GetEstadoIcon(g.estado),
      RenderEstrellas(g.puntuacion),
      TextoPuntuacion(g.puntuacion),
      if g.horasJugadas > 0.0 then Some(g.horasJugadas) else None,
      if Truthy(g.fechaInicio) || Truthy(g.fechaFin)
      then Some(Fechas(Truthy(g.fechaInicio), Truthy(g.fechaFin)))
      else None
    )
  }
}

/**
  The game form (`FormularioJuego`): its state, the field-by-field
  validator, single-field updates, the star picker, the normalisation of a
  stored game loaded for editing and the coercion applied on submit. The
  current year (`new Date().getFullYear()`) is a parameter.
 */
module Formulario {
  import opened Juegos
  import opened Texto

  /**
    `formData`. Number inputs hold `None` when they are empty or do not
    hold a number (JavaScript's `''` or `NaN`).
   */
  datatype FormData = FormData(
    titulo: string,
    desarrolladora: string,
    genero: string,
    plataforma: string,
    anioLanzamiento: Option<int>,
    portada: string,
    estado: string,
    puntuacion: int,
    horasJugadas: Option<real>,
    fechaInicio: string,
    fechaFin: string
  )

  /** The form as it opens for a new game. */
  function FormularioInicial(anioActual: int): FormData {
    FormData("", "", "", "", Some(anioActual), "", PorJugar, 0, Some(0.0), "", "")
  }

  // --------------------------------------------------------------- fields

  datatype Field =
    | Titulo | Desarrolladora | Genero | Plataforma | AnioLanzamiento | Portada
    | Estado | Puntuacion | HorasJugadas | FechaInicio | FechaFin

  /** The value of one field, whatever its kind. */
  datatype Value = Text(text: string) | Year(year: Option<int>) | Stars(stars: int) | Hours(hours: Option<real>)

  function Get(d: FormData, f: Field): Value {
    match f
    case Titulo => Text(d.titulo)
    case Desarrolladora => Text(d.desarrolladora)
    case Genero => Text(d.genero)
    case Plataforma => Text(d.plataforma)
    case AnioLanzamiento => Year(d.anioLanzamiento)
    case Portada => Text(d.portada)
    case Estado => Text(d.estado)
    case Puntuacion => Stars(d.puntuacion)
    case HorasJugadas => Hours(d.horasJugadas)
    case FechaInicio => Text(d.fechaInicio)
    case FechaFin => Text(d.fechaFin)
  }

  /** The fields edited through a text, select, url or date input. */
  type TextField = f: Field | f !in {AnioLanzamiento, Puntuacion, HorasJugadas} witness Titulo

  /** An `onChange` event: the input's `name` and the value it now holds. */
  datatype Input = TextInput(field: TextField, text: string) | YearInput(year: Option<int>) | HoursInput(hours: Option<real>)

  function NameOf(e: Input): Field {
    match e
    case TextInput(f, _) => f
    case YearInput(_) => AnioLanzamiento
    case HoursInput(_) => HorasJugadas
  }

  function ValueOf(e: Input): Value {
    match e
    case TextInput(_, t) => Text(t)
    case YearInput(y) => Year(y)
    case HoursInput(h) => Hours(h)
  }

  /** `setFormData(prev => ({...prev, [name]: value}))`: only the named field changes. */
  function UpdateField(d: FormData, e: Input): (r: FormData)
    ensures Get(r, NameOf(e)) == ValueOf(e)
    ensures forall f :: f != NameOf(e) ==> Get(r, f) == Get(d, f)
  {
    match e
    case YearInput(y) => d.(anioLanzamiento := y)
    case HoursInput(h) => d.(horasJugadas := h)
    case TextInput(f, t) =>
      match f
      case Titulo => d.(titulo := t)
      case Desarrolladora => d.(desarrolladora := t)
      case Genero => d.(genero := t)
      case Plataforma => d.(plataforma := t)
      case Portada => d.(portada := t)
      case Estado => d.(estado := t)
      case FechaInicio => d.(fechaInicio := t)
      case FechaFin => d.(fechaFin := t)
  }

  /** Error messages by field; an empty message is no error on screen. */
  type Errors = map<Field, string>

  /** An error shown for `f` is replaced by the empty message; nothing else changes. */
  function ClearError(errors: Errors, f: Field): (r: Errors)
    ensures r.Keys == errors.Keys
    ensures f in r ==> r[f] == ""
    ensures forall g :: g in r && g != f ==> r[g] == errors[g]
  {
    if f in errors && errors[f] != "" then errors[f := ""] else errors
  }

  /** The component state that `handleChange` updates. */
  datatype FormState = FormState(data: FormData, errors: Errors)

  /** `handleChange`: sets the named field and clears the error shown for it. */
  function HandleChange(s: FormState, e: Input): (r: FormState)
    ensures Get(r.data, NameOf(e)) == ValueOf(e)
    ensures forall f :: f != NameOf(e) ==> Get(r.data, f) == Get(s.data, f)
    ensures r.errors.Keys == s.errors.Keys
    ensures NameOf(e) in r.errors ==> r.errors[NameOf(e)] == ""
    ensures forall f :: f in r.errors && f != NameOf(e) ==> r.errors[f] == s.errors[f]
  {
    FormState(UpdateField(s.data, e), ClearError(s.errors, NameOf(e)))
  }

  // ---------------------------------------------------------------- stars

  /** `handleStarClick`: the rating becomes `puntuacion`; nothing else changes. */
  function HandleStarClick(d: FormData, puntuacion: int): (r: FormData)
    ensures Get(r, Puntuacion) == Stars(puntuacion)
    ensures forall f :: f != Puntuacion ==> Get(r, f) == Get(d, f)
  {
    d.(puntuacion := puntuacion)
  }

  /** Star `n` (1 to 5) is active up to the hovered star, or up to the rating when none is hovered. */
  predicate StarActive(n: int, hoveredStar: int, puntuacion: int) {
    n <= (if hoveredStar != 0 then hoveredStar else puntuacion)
  }

  /** The five star buttons, as active flags. */
  function RenderStars(hoveredStar: int, puntuacion: int): (r: seq<bool>)
    ensures |r| == 5
    ensures forall i :: 0 <= i < 5 ==> r[i] == StarActive(i + 1, hoveredStar, puntuacion)
  {
    seq(5, i => StarActive(i + 1, hoveredStar, puntuacion))
  }

  /**
    After clicking star `n` and moving the pointer away, exactly the first
    `n` stars are active.
   */
  lemma ClickedRatingLightsStars(d: FormData, n: int)
    requires 1 <= n <= 5
    ensures var r := RenderStars(0, HandleStarClick(d, n).puntuacion);
      CountTrue(r) == n && forall i :: 0 <= i < 5 ==> (r[i] <==> i < n)
  {
    var r := RenderStars(0, HandleStarClick(d, n).puntuacion);
    CountLitBelow(r, n);
  }

  // ----------------------------------------------------------- validation

  /** `!añoLanzamiento || añoLanzamiento < 1970 || añoLanzamiento > anioActual + 5`. */
  predicate YearInvalid(y: Option<int>, anioActual: int) {
    match y
    case None => true
    case Some(v) => v == 0 || v < 1970 || v > anioActual + 5
  }

  /** `horasJugadas < 0`; an empty or non-numeric input compares false. */
  predicate HoursInvalid(h: Option<real>) {
    h.Some? && h.value < 0.0
  }

  /** The check `validateForm` makes of field `f`. */
  predicate Invalid(d: FormData, f: Field, anioActual: int) {
    match f
    case Titulo => IsBlank(d.titulo)
    case Desarrolladora => IsBlank(d.desarrolladora)
    case Genero => d.genero == ""
    case Plataforma => d.plataforma == ""
    case AnioLanzamiento => YearInvalid(d.anioLanzamiento, anioActual)
    case HorasJugadas => HoursInvalid(d.horasJugadas)
    case _ => false
  }

  /** The message `validateForm` records for an invalid field. */
  function Message(f: Field): (m: string)
    ensures m != "" <==> f in {Titulo, Desarrolladora, Genero, Plataforma, AnioLanzamiento, HorasJugadas}
  {
    match f
    case Titulo => "El título es obligatorio"
    case Desarrolladora => "La desarrolladora es obligatoria"
    case Genero => "El género es obligatorio"
    case Plataforma => "La plataforma es obligatoria"
    case AnioLanzamiento => "El año de lanzamiento no es válido"
    case HorasJugadas => "Las horas jugadas no pueden ser negativas"
    case _ => ""
  }

  /** `errors` holds the message of each invalid field among `checked`, and nothing else. */
  ghost predicate Records(errors: Errors, d: FormData, anioActual: int, checked: set<Field>) {
    forall f :: (f in errors <==> f in checked && Invalid(d, f, anioActual))
                && (f in errors ==> errors[f] == Message(f))
  }

  /** One conditional assignment of `validateForm` extends what `errors` records by field `f`. */
  lemma RecordStep(errors: Errors, d: FormData, anioActual: int, checked: set<Field>, f: Field)
    requires Records(errors, d, anioActual, checked)
    ensures Records(if Invalid(d, f, anioActual) then errors[f := Message(f)] else errors,
                    d, anioActual, checked + {f})
  {
  }

  /** The six checked fields are the only ones that can be invalid. */
  lemma RecordsAll(errors: Errors, d: FormData, anioActual: int)
    requires Records(errors, d, anioActual, {Titulo, Desarrolladora, Genero, Plataforma, AnioLanzamiento, HorasJugadas})
    ensures forall f :: f in errors <==> Invalid(d, f, anioActual)
    ensures forall f :: f in errors ==> errors[f] == Message(f)
  {
  }

  /** An empty error map means every field passed. */
  lemma NoErrorsIffValid(errors: Errors, d: FormData, anioActual: int)
    requires forall f :: f in errors <==> Invalid(d, f, anioActual)
    ensures errors == map[] <==> forall f :: !Invalid(d, f, anioActual)
  {
    if errors != map[] {
      var f :| f in errors;
    }
  }

  /**
    `validateForm`: builds the error map one field at a time and reports
    whether it stayed empty.
   */
  method ValidateForm(d: FormData, anioActual: int) returns (ok: bool, errors: Errors)
    ensures forall f :: f in errors <==> Invalid(d, f, anioActual)
    ensures forall f :: f in errors ==> errors[f] == Message(f)
    ensures ok <==> errors == map[]
    ensures ok <==> forall f :: !Invalid(d, f, anioActual)
  {
    errors := map[];
    ghost var checked: set<Field> := {};
    if Invalid(d, Titulo, anioActual) {
      errors := errors[Titulo := Message(Titulo)];
    }
    RecordStep(map[], d, anioActual, checked, Titulo);
    checked := checked + {Titulo};
    ghost var before := errors;
    if Invalid(d, Desarrolladora, anioActual) {
      errors := errors[Desarrolladora := Message(Desarrolladora)];
    }
    RecordStep(before, d, anioActual, checked, Desarrolladora);
    checked := checked + {Desarrolladora};
    before := errors;
    if Invalid(d, Genero, anioActual) {
      errors := errors[Genero := Message(Genero)];
    }
    RecordStep(before, d, anioActual, checked, Genero);
    checked := checked + {Genero};
    before := errors;
    if Invalid(d, Plataforma, anioActual) {
      errors := errors[Plataforma := Message(Plataforma)];
    }
    RecordStep(before, d, anioActual, checked, Plataforma);
    checked := checked + {Plataforma};
    before := errors;
    if Invalid(d, AnioLanzamiento, anioActual) {
      errors := errors[AnioLanzamiento := Message(AnioLanzamiento)];
    }
    RecordStep(before, d, anioActual, checked, AnioLanzamiento);
    checked := checked + {AnioLanzamiento};
    before := errors;
    if Invalid(d, HorasJugadas, anioActual) {
      errors := errors[HorasJugadas := Message(HorasJugadas)];
    }
    RecordStep(before, d, anioActual, checked, HorasJugadas);
    checked := checked + {HorasJugadas};
    assert checked == {Titulo, Desarrolladora, Genero, Plataforma, AnioLanzamiento, HorasJugadas};
    RecordsAll(errors, d, anioActual);
    NoErrorsIffValid(errors, d, anioActual);
    ok := errors == map[];
  }

  /**
    What the validator accepts, field by field: a title and a developer
    with a character other than white space, a genre and a platform, a
    release year from 1970 to five years ahead, and hours that are not
    negative (zero hours, or an empty hours input, pass).
   */
  lemma AcceptedExactly(d: FormData, anioActual: int)
    ensures (forall f :: !Invalid(d, f, anioActual)) <==>
      && (exists i :: 0 <= i < |d.titulo| && !IsWhiteSpace(d.titulo[i]))
      && (exists i :: 0 <= i < |d.desarrolladora| && !IsWhiteSpace(d.desarrolladora[i]))
      && d.genero != "" && d.plataforma != ""
      && d.anioLanzamiento.Some? && 1970 <= d.anioLanzamiento.value <= anioActual + 5
      && (d.horasJugadas.None? || d.horasJugadas.value >= 0.0)
  {
    BlankIffAllWhiteSpace(d.titulo);
    BlankIffAllWhiteSpace(d.desarrolladora);
    assert Invalid(d, Titulo, anioActual) == IsBlank(d.titulo);
    assert Invalid(d, Desarrolladora, anioActual) == IsBlank(d.desarrolladora);
    assert Invalid(d, Genero, anioActual) == (d.genero == "");
    assert Invalid(d, Plataforma, anioActual) == (d.plataforma == "");
    assert Invalid(d, AnioLanzamiento, anioActual) == YearInvalid(d.anioLanzamiento, anioActual);
    assert Invalid(d, HorasJugadas, anioActual) == HoursInvalid(d.horasJugadas);
  }

  /** The empty form fails on exactly the four required text fields. */
  lemma InitialFormMissesRequiredText(anioActual: int)
    requires anioActual >= 1970
    ensures forall f :: Invalid(FormularioInicial(anioActual), f, anioActual)
                        <==> f in {Titulo, Desarrolladora, Genero, Plataforma}
  {
    BlankIffAllWhiteSpace("");
  }

  // ---------------------------------------------------------------- load

  /** A game as the server returns it for editing; any field may be missing. */
  datatype Stored = Stored(
    titulo: Option<string>,
    desarrolladora: Option<string>,
    genero: Option<string>,
    plataforma: Option<string>,
    anioLanzamiento: Option<int>,
    portada: Option<string>,
    estado: Option<string>,
    puntuacion: Option<int>,
    horasJugadas: Option<real>,
    fechaInicio: Option<string>,
    fechaFin: Option<string>
  )

  /** `v || fallback` for a text. */
  function TextOr(v: Option<string>, fallback: string): string {
    if Truthy(v) then v.value else fallback
  }

  /** `v || fallback` for an integer. */
  function IntOr(v: Option<int>, fallback: int): int {
    if v.Some? && v.value != 0 then v.value else fallback
  }

  /** `v || fallback` for a decimal. */
  function RealOr(v: Option<real>, fallback: real): real {
    if v.Some? && v.value != 0.0 then v.value else fallback
  }

  /** `fecha ? fecha.split('T')[0] : ''`: the calendar part of a stored date. */
  function DatePart(fecha: Option<string>): (r: string)
    ensures 'T' !in r
    ensures Truthy(fecha) ==> |r| <= |fecha.value| && r == fecha.value[..|r|]
    ensures Truthy(fecha) && |r| < |fecha.value| ==> fecha.value[|r|] == 'T'
    ensures !Truthy(fecha) ==> r == ""
  {
    if Truthy(fecha) then BeforeFirst(fecha.value, 'T') else ""
  }

  /** The form state `cargarJuego` builds from a stored game. */
  function CargarJuego(j: Stored, anioActual: int): (d: FormData)
    ensures Truthy(j.titulo) ==> d.titulo == j.titulo.value
    ensures !Truthy(j.titulo) ==> d.titulo == ""
    ensures Truthy(j.desarrolladora) ==> d.desarrolladora == j.desarrolladora.value
    ensures !Truthy(j.desarrolladora) ==> d.desarrolladora == ""
    ensures Truthy(j.genero) ==> d.genero == j.genero.value
    ensures !Truthy(j.genero) ==> d.genero == ""
    ensures Truthy(j.plataforma) ==> d.plataforma == j.plataforma.value
    ensures !Truthy(j.plataforma) ==> d.plataforma == ""
    ensures Truthy(j.portada) ==> d.portada == j.portada.value
    ensures !Truthy(j.portada) ==> d.portada == ""
    ensures Truthy(j.estado) ==> d.estado == j.estado.value
    ensures !Truthy(j.estado) ==> d.estado == PorJugar
    ensures j.anioLanzamiento.Some? && j.anioLanzamiento.value != 0 ==> d.anioLanzamiento == j.anioLanzamiento
    ensures j.anioLanzamiento.None? || j.anioLanzamiento.value == 0 ==> d.anioLanzamiento == Some(anioActual)
    ensures j.puntuacion.Some? && j.puntuacion.value != 0 ==> d.puntuacion == j.puntuacion.value
    ensures j.puntuacion.None? || j.puntuacion.value == 0 ==> d.puntuacion == 0
    ensures j.horasJugadas.Some? && j.horasJugadas.value != 0.0 ==> d.horasJugadas == j.horasJugadas
    ensures j.horasJugadas.None? || j.horasJugadas.value == 0.0 ==> d.horasJugadas == Some(0.0)
    ensures d.fechaInicio == DatePart(j.fechaInicio) && d.fechaFin == DatePart(j.fechaFin)
    ensures d.estado != "" && d.anioLanzamiento.Some? && d.horasJugadas.Some?
  {
    FormData(
      TextOr(j.titulo, ""),
      TextOr(j.desarrolladora, ""),
      TextOr(j.genero, ""),
      TextOr(j.plataforma, ""),
      Some(IntOr(j.anioLanzamiento, anioActual)),
      TextOr(j.portada, ""),
      TextOr(j.estado, PorJugar),
      IntOr(j.puntuacion, 0),
      Some(RealOr(j.horasJugadas, 0.0)),
      DatePart(j.fechaInicio),
      DatePart(j.fechaFin)
    )
  }

  // --------------------------------------------------------------- submit

  /** `juegoData`, the record sent to the server; absent dates are `None`. */
  datatype Payload = Payload(
    titulo: string,
    desarrolladora: string,
    genero: string,
    plataforma: string,
    anioLanzamiento: Option<int>,
    portada: string,
    estado: string,
    puntuacion: int,
    horasJugadas: real,
    fechaInicio: Option<string>,
    fechaFin: Option<string>
  )

  /** `text || undefined`. */
  function PresentOrAbsent(text: string): (r: Option<string>)
    ensures r.None? <==> text == ""
    ensures r.Some? ==> r.value == text
  {
    if text != "" then Some(text) else None
  }

  /**
    The coercion on submit: hours that are empty or not a number become 0,
    the rating is an integer or 0, empty dates are left out.
   */
  function JuegoData(d: FormData): (p: Payload)
    ensures d.horasJugadas.None? ==> p.horasJugadas == 0.0
    ensures d.horasJugadas.Some? ==> p.horasJugadas == d.horasJugadas.value
    ensures p.puntuacion == d.puntuacion
    ensures p.anioLanzamiento == d.anioLanzamiento
    ensures p.titulo == d.titulo && p.desarrolladora == d.desarrolladora
    ensures p.genero == d.genero && p.plataforma == d.plataforma
    ensures p.portada == d.portada && p.estado == d.estado
    ensures p.fechaInicio == PresentOrAbsent(d.fechaInicio)
    ensures p.fechaFin == PresentOrAbsent(d.fechaFin)
    ensures p.fechaInicio.None? <==> d.fechaInicio == ""
    ensures p.fechaFin.None? <==> d.fechaFin == ""
  {
    Payload(
      d.titulo, d.desarrolladora, d.genero, d.plataforma,
      d.anioLanzamiento,
      d.portada, d.estado,
      IntOr(Some(d.puntuacion), 0),
      RealOr(d.horasJugadas, 0.0),
      PresentOrAbsent(d.fechaInicio),
      PresentOrAbsent(d.fechaFin)
    )
  }

  /**
    `handleSubmit` up to the network call: nothing is sent unless the form
    validates, and then the coerced record is sent.
   */
  method HandleSubmit(d: FormData, anioActual: int) returns (errors: Errors, enviado: Option<Payload>)
    ensures forall f :: f in errors <==> Invalid(d, f, anioActual)
    ensures enviado.Some? <==> errors == map[]
    ensures enviado.Some? ==> enviado.value == JuegoData(d)
    ensures enviado.Some? ==> var y := enviado.value.anioLanzamiento;
      y.Some? && 1970 <= y.value <= anioActual + 5
  {
    var ok;
    ok, errors := ValidateForm(d, anioActual);
    if !ok {
      return errors, None;
    }
    assert !Invalid(d, AnioLanzamiento, anioActual);
    enviado := Some(JuegoData(d));
  }

  /** The time of day the server appends to a stored calendar date. */
  const Medianoche := "T00:00:00.000Z"

  /** A date as the server sends it back: the calendar date and a time part. */
  function ConHora(fecha: Option<string>): (r: Option<string>)
    ensures r.None? <==> fecha.None?
    ensures r.Some? ==> r.value == fecha.value + Medianoche
  {
    match fecha
    case None => None
    case Some(f) => Some(f + Medianoche)
  }

  /**
    The stored game the server returns for a record it was sent: the same
    values, with the dates carrying a time part.
   */
  function Guardado(p: Payload): Stored {
    Stored(Some(p.titulo), Some(p.desarrolladora), Some(p.genero), Some(p.plataforma),
           p.anioLanzamiento, Some(p.portada), Some(p.estado), Some(p.puntuacion),
           Some(p.horasJugadas), ConHora(p.fechaInicio), ConHora(p.fechaFin))
  }

  /**
    A calendar date without a time part survives being sent, stored with a
    time part and loaded back: `split('T')[0]` cuts exactly the added part.
   */
  lemma DatePartRoundTrip(fecha: string)
    requires 'T' !in fecha
    ensures DatePart(ConHora(PresentOrAbsent(fecha))) == fecha
  {
    if fecha != "" {
      var s := fecha + Medianoche;
      var r := DatePart(Some(s));
      assert s[|fecha|] == 'T';
      assert r == s[..|fecha|] == fecha;
    }
  }

  /**
    Submitting a valid form and loading the saved game back gives the same
    form, except that empty hours come back as 0.
   */
  lemma SubmitThenLoad(d: FormData, anioActual: int)
    requires forall f :: !Invalid(d, f, anioActual)
    requires d.estado != ""
    requires 'T' !in d.fechaInicio && 'T' !in d.fechaFin
    ensures CargarJuego(Guardado(JuegoData(d)), anioActual)
         == d.(horasJugadas := Some(d.horasJugadas.GetOr(0.0)))
  {
    assert !Invalid(d, Titulo, anioActual) && !Invalid(d, Desarrolladora, anioActual);
    assert !Invalid(d, AnioLanzamiento, anioActual);
    BlankIffAllWhiteSpace("");
    DatePartRoundTrip(d.fechaInicio);
    DatePartRoundTrip(d.fechaFin);
  }
}

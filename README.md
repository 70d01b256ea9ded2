# GameTracker front end — a Dafny model of its logic

GameTracker is a React front end for a personal video-game library. This
project models the logic inside four of its components and proves what that
logic promises:

- **Library view** (`BibliotecaJuegos`): the status-and-search filter over
  the loaded games, the ordering of a copy of the filtered list by one of five
  keys, and the four header counters (modules `Biblioteca`, `Orden`).
- **Game form** (`FormularioJuego`): the field-by-field validator and its error
  map, single-field updates that clear the field's error, the star picker, the
  normalisation of a stored game loaded for editing, and the coercion applied
  on submit (module `Formulario`).
- **Statistics dashboard** (`EstadisticasPersonales`): the percentages, the
  genre and top-rated lists and the goal bars computed from the aggregates the
  server sends (module `Estadisticas`).
- **Game card** (`TarjetaJuego`): the status colour and icon tables, the
  five-star strip and the conditions for showing the rating text, the hours
  badge and the dates block (module `Tarjeta`).

Shared pieces: the game record and the four status names (`Juegos`), and the
JavaScript string primitives the components use — ASCII `toLowerCase`,
`includes`, `trim`, `split(c)[0]`, the decimal text of a number and a
code-point order standing in for `localeCompare` (`Texto`).

The view state (`filtro`, `busqueda`, `orden`), the current year and the
server's answers are parameters. The ordering is the one part that sorts an array in place:
`JuegosOrdenados` copies the filtered list into an array and sorts it in
place by stable insertion, proved equal to the specification `SortBy`, about
which permutation, sortedness, stability, idempotence and the default-key
identity are proved. `ValidateForm` builds its error map by the same six
conditional assignments as the source.

**The filter ANDs status and search.** A non-empty search term does not
override the status filter: a game whose status does not match is rejected
before the search is looked at (`src/components/BibliotecaJuegos.jsx:34-36`).
`Biblioteca.StatusAndSearchAreAnded` states it.

## Model

| member | source | states |
|---|---|---|
| Texto.ToLowerCase | src/components/BibliotecaJuegos.jsx:40-44 | lowercasing keeps the length, maps each character through the ASCII lower-case table and leaves no upper-case ASCII letter |
| Texto.IncludesIffOccurs | src/components/BibliotecaJuegos.jsx:42-44 | `includes`, the left-to-right scan `Texto.Includes`, is true exactly when the term occurs at some position of the text |
| Texto.Trim | src/components/FormularioJuego.jsx:101-107 | the trimmed text is the original with only white space cut from its two ends, and all of it: it is empty or starts and ends with a character that is not white space |
| Texto.BlankIffAllWhiteSpace | src/components/FormularioJuego.jsx:101-107 | `!s.trim()` holds exactly when every character is white space (empty text included) |
| Texto.BeforeFirst | src/components/FormularioJuego.jsx:66-67 | `split('T')[0]` is the prefix before the first `T`, holds no `T`, and is the whole text when there is none |
| Texto.NatToString | src/components/TarjetaJuego.jsx:114 | the decimal text of a number is non-empty, all digits, one digit exactly below 10, and starts with `0` only for 0 (no leading zeros) |
| Texto.DecimalRoundTrip | src/components/TarjetaJuego.jsx:114 | reading the decimal text back gives the number |
| Texto.CodePointCompare | src/components/BibliotecaJuegos.jsx:59 | the title comparison is three-valued and zero exactly on equal titles |
| Texto.CodePointCompareAntisymmetric | src/components/BibliotecaJuegos.jsx:59 | swapping the titles negates the comparison |
| Texto.CodePointCompareTransitive | src/components/BibliotecaJuegos.jsx:59 | the title order is transitive |
| Biblioteca.JuegosFiltrados | src/components/BibliotecaJuegos.jsx:32-49 | the filtered list is no longer than the library and holds exactly the library's games the callback `Biblioteca.KeepsGame` keeps |
| Biblioteca.KeptIndicesExact | src/components/BibliotecaJuegos.jsx:32-49 | a position is selected exactly when the callback keeps the game there |
| Biblioteca.FilterSelectsInOrder | src/components/BibliotecaJuegos.jsx:32-49 | the filtered list is the library at strictly increasing positions: an order-preserving subsequence |
| Biblioteca.FilterAllIsIdentity | src/components/BibliotecaJuegos.jsx:34-48 | status `todos` with no search term shows the library unchanged, in order |
| Biblioteca.StatusAndSearchAreAnded | src/components/BibliotecaJuegos.jsx:34-46 | `Biblioteca.KeepsGame` holds iff the status passes and, when there is a term, the term occurs case-insensitively in title, developer or genre |
| Biblioteca.SearchIgnoresTermCase | src/components/BibliotecaJuegos.jsx:40 | a term and its lowercase form select the same games |
| Biblioteca.FilterPointwise | src/components/BibliotecaJuegos.jsx:32-49 | two searches that keep the same games give the same list |
| Biblioteca.CountEstado | src/components/BibliotecaJuegos.jsx:132 | the status count never exceeds the number of games |
| Biblioteca.CountIsFilterLength | src/components/BibliotecaJuegos.jsx:132 | the Completados counter equals the length of the list the status filter `Completado` shows |
| Biblioteca.TotalHorasAppend | src/components/BibliotecaJuegos.jsx:138 | the hour total `Biblioteca.TotalHoras` (the `reduce` over hours) of two libraries together is the sum of their totals |
| Biblioteca.TotalHorasBounds | src/components/BibliotecaJuegos.jsx:138 | with no negative hours the total is non-negative and at least each game's hours |
| Biblioteca.Encabezado | src/components/BibliotecaJuegos.jsx:125-146 | Total juegos is the library size, Completados the count of `Completado` games (the length of that status filter), Horas totales the hour sum, Filtrados the filtered list's length; Completados and Filtrados never exceed the total, an empty library shows zeros, and with no filter Filtrados equals Total |
| Orden.CompararAntisymmetric | src/components/BibliotecaJuegos.jsx:52-67 | every case of the comparator `Orden.Comparar` (the `switch` on the key, 0 for an unknown key) is antisymmetric |
| Orden.CompararTransitive | src/components/BibliotecaJuegos.jsx:52-67 | every case of `Orden.Comparar` is transitive |
| Orden.SameKeyTransitive | src/components/BibliotecaJuegos.jsx:52-67 | comparing equal is transitive |
| Orden.InsertPermutes | src/components/BibliotecaJuegos.jsx:52 | one insertion adds exactly the inserted game |
| Orden.SortByPermutes | src/components/BibliotecaJuegos.jsx:52 | the sorted copy `Orden.SortBy` (each game inserted in turn after those that may precede it) is a permutation of the filtered list |
| Orden.InsertSorted | src/components/BibliotecaJuegos.jsx:52-67 | inserting into a sorted list keeps it sorted |
| Orden.SortBySorted | src/components/BibliotecaJuegos.jsx:52-67 | the sorted copy is sorted under the comparator |
| Orden.InsertStable | src/components/BibliotecaJuegos.jsx:52 | insertion keeps the relative order of games with equal keys |
| Orden.SortByStable | src/components/BibliotecaJuegos.jsx:52 | games with equal keys keep their filtered order (stable sort) |
| Orden.UnknownOrderKeepsInput | src/components/BibliotecaJuegos.jsx:64-65 | an unrecognised key leaves the filtered list as it is |
| Orden.SortedIsFixpoint | src/components/BibliotecaJuegos.jsx:52-67 | an already sorted list is left unchanged |
| Orden.SortByIdempotent | src/components/BibliotecaJuegos.jsx:52-67 | sorting twice is sorting once |
| Orden.SortDirections | src/components/BibliotecaJuegos.jsx:53-63 | newest first, oldest first, titles ascending, rating and hours non-increasing, by key |
| Orden.InsertAt | src/components/BibliotecaJuegos.jsx:52 | insertion places the game just after the last game that may precede it |
| Orden.InsertInPlace | src/components/BibliotecaJuegos.jsx:52 | one in-place insertion step on the array is one `Insert` on its prefix and leaves the rest of the array alone |
| Orden.JuegosOrdenados | src/components/BibliotecaJuegos.jsx:52-67 | the copy sorted in place equals `SortBy`: a sorted, stable permutation of the filtered list, which itself is left untouched |
| Formulario.UpdateField | src/components/FormularioJuego.jsx:77-80 | the named field takes the input's value and every other field keeps its value |
| Formulario.ClearError | src/components/FormularioJuego.jsx:83-88 | the field's message becomes empty, no key is added or removed, other messages are kept |
| Formulario.HandleChange | src/components/FormularioJuego.jsx:75-89 | only the named field changes and only its error is cleared |
| Formulario.HandleStarClick | src/components/FormularioJuego.jsx:91-96 | only the rating changes, to the clicked star |
| Formulario.RenderStars | src/components/FormularioJuego.jsx:171-178 | five stars; star k is active iff k is at most the hovered star, or the rating when none is hovered |
| Formulario.ClickedRatingLightsStars | src/components/FormularioJuego.jsx:171-181 | after clicking star n and leaving, exactly the first n stars are active |
| Formulario.Message | src/components/FormularioJuego.jsx:101-123 | a message is non-empty exactly for the six validated fields |
| Formulario.RecordsAll | src/components/FormularioJuego.jsx:98-124 | once all six fields are checked, the error map holds exactly the invalid fields, each with its message |
| Formulario.NoErrorsIffValid | src/components/FormularioJuego.jsx:125-126 | the error map is empty exactly when no field is invalid |
| Formulario.ValidateForm | src/components/FormularioJuego.jsx:98-127 | the error map holds exactly the invalid fields with their messages, and the result is true iff the map is empty iff every field passes |
| Formulario.AcceptedExactly | src/components/FormularioJuego.jsx:101-123 | the form passes iff title and developer have a non-white character, genre and platform are set, the year is present and in 1970..current+5, and hours are not negative |
| Formulario.InitialFormMissesRequiredText | src/components/FormularioJuego.jsx:14-26 | the blank form `Formulario.FormularioInicial` fails on exactly title, developer, genre and platform |
| Formulario.DatePart | src/components/FormularioJuego.jsx:66-67 | a present date keeps exactly its prefix up to the first `T` (the whole text when there is none); a missing or empty one becomes empty |
| Formulario.CargarJuego | src/components/FormularioJuego.jsx:56-68 | a truthy stored value is kept and a missing or falsy one (empty text, 0) takes its default: empty text, the current year, `Por jugar`, 0 rating, 0 hours; each date is its part before the first `T` |
| Formulario.PresentOrAbsent | src/components/FormularioJuego.jsx:144-145 | an empty date is dropped and any other is kept as is |
| Formulario.JuegoData | src/components/FormularioJuego.jsx:139-146 | empty hours become 0; text fields, year and rating pass unchanged; a date is left out exactly when it is empty and otherwise sent as is |
| Formulario.HandleSubmit | src/components/FormularioJuego.jsx:129-146 | a record is sent iff the form validates; it is the coerced form and its year is in range |
| Formulario.DatePartRoundTrip | src/components/FormularioJuego.jsx:144-145 | a date without a time part survives being sent, stored with a time part appended and cut back at the first `T` on load |
| Formulario.SubmitThenLoad | src/components/FormularioJuego.jsx:56-68 | loading back a saved valid form gives the same form, with empty hours as 0, when the server echoes the record with a time part on each date |
| Estadisticas.Porcentaje | src/components/EstadisticasPersonales.jsx:72-73 | with a positive total the percentage times the total is 100 times the count; otherwise it is 0; consistent counts give 0..100 |
| Estadisticas.Cociente | src/components/EstadisticasPersonales.jsx:221 | the unguarded division has no finite value exactly when the total is 0 |
| Estadisticas.CocienteIsPorcentaje | src/components/EstadisticasPersonales.jsx:196 | with a positive total the guarded and unguarded forms agree |
| Estadisticas.PorJugarCount | src/components/EstadisticasPersonales.jsx:195 | the Por jugar count, completed and playing add up to the total |
| Estadisticas.PorcentajePorJugarAsWritten | src/components/EstadisticasPersonales.jsx:196-203 | the Por jugar percentage as written has no finite value exactly when the total is 0 |
| Estadisticas.PorJugarWithNoGames | src/components/EstadisticasPersonales.jsx:196 | with total 0 the two guarded bars show 0 and the Por jugar bar shows no number |
| Estadisticas.PorcentajePorJugar | src/components/EstadisticasPersonales.jsx:196-203 | the guarded Por jugar percentage agrees with the source whenever the total is positive and is 0 otherwise |
| Estadisticas.StatusBarsShareOut | src/components/EstadisticasPersonales.jsx:195-203 | the bars `Estadisticas.PorcentajeCompletados` and `Estadisticas.PorcentajeJugando` (guarded, lines 72-73) and the corrected `PorcentajePorJugar` add up to 100% with games and are all 0 without |
| Estadisticas.SharesOfWhole | src/components/EstadisticasPersonales.jsx:72-73 | three shares of a positive whole, as percentages, add up to 100 |
| Estadisticas.StatusBarsBounded | src/components/EstadisticasPersonales.jsx:72-73 | with consistent counts every status bar lies in 0..100 |
| Estadisticas.FilasGeneros | src/components/EstadisticasPersonales.jsx:220-237 | at most the first eight genres, each with its name, count and count/total·100 |
| Estadisticas.MasGeneros | src/components/EstadisticasPersonales.jsx:239-242 | the overflow note appears exactly past eight genres and is positive |
| Estadisticas.GenresAccounted | src/components/EstadisticasPersonales.jsx:220-242 | shown rows plus the overflow count equal the number of genres |
| Estadisticas.CantidadMejorCalificados | src/components/EstadisticasPersonales.jsx:307 | the top-rated count is the list's length, or 0 when the list is absent |
| Estadisticas.FilasTop | src/components/EstadisticasPersonales.jsx:313-319 | at most three entries, in the server's order, ranked 1, 2, 3 |
| Estadisticas.Progreso | src/components/EstadisticasPersonales.jsx:346 | a goal bar never passes 100, is full exactly when the goal is reached, and below it is value/goal·100 |
| Estadisticas.ResenasEscritas | src/components/EstadisticasPersonales.jsx:369 | the review count is the server's total, or 0 when review statistics are missing |
| Estadisticas.BarrasMetas | src/components/EstadisticasPersonales.jsx:346-369 | each goal bar is the progress towards its goal (value/goal·100, capped at 100): full exactly at 10 completed games, 100 hours, 5 reviews |
| Estadisticas.Dashboard | src/components/EstadisticasPersonales.jsx:54-73 | no statistics gives the empty state; otherwise every panel field is the server value or the function that computes it (percentages, genre rows, overflow note, goal bars), the review card appears iff review statistics arrived and holds their count and top list, the Por jugar bar equals the source's unguarded value whenever there are games, and the status bars add up to 100% |
| Tarjeta.GetEstadoColor | src/components/TarjetaJuego.jsx:11-19 | blue for `Jugando`, green for `Completado`, red for `Abandonado`, grey exactly for `Por jugar` and any unknown status |
| Tarjeta.GetEstadoIcon | src/components/TarjetaJuego.jsx:21-29 | hourglass for `Por jugar`, check mark for `Completado`, cross for `Abandonado`, the gamepad exactly for `Jugando` and any unknown status |
| Tarjeta.BadgeDistinguishesStatuses | src/components/TarjetaJuego.jsx:11-29 | among the four statuses, colours and icons each tell every status apart |
| Tarjeta.UnknownStatusBadge | src/components/TarjetaJuego.jsx:18-28 | an unknown status is coloured like `Por jugar` and iconed like `Jugando` |
| Tarjeta.RenderEstrellas | src/components/TarjetaJuego.jsx:31-39 | five stars, star i filled iff i < rating |
| Tarjeta.FilledStars | src/components/TarjetaJuego.jsx:31-39 | the number of filled stars is the rating clamped to 0..5 |
| Tarjeta.CardMatchesForm | src/components/TarjetaJuego.jsx:31-39 | the card's stars are the form picker's stars at rest |
| Tarjeta.TextoPuntuacion | src/components/TarjetaJuego.jsx:114 | `Sin puntuar` exactly when the rating is at most 0, otherwise exactly the rating's decimal text (`NatToString`, no leading zeros) followed by `/5` |
| Tarjeta.TextoPuntuacionReadsBack | src/components/TarjetaJuego.jsx:114 | the text before `/5` is digits with no leading zero and reads back as the rating |
| Tarjeta.Tarjeta | src/components/TarjetaJuego.jsx:82-140 | badge from the tables, the star strip and rating text of the rating (filled stars clamped to 0..5, `Sin puntuar` iff not positive), hours badge iff hours > 0, dates block iff a date is present, with a line for each present date |

## Left out

- Network and effects: loading the games and statistics, `cargarJuego`'s fetch, the create/update calls of `handleSubmit`, `alert`, `confirm`, `navigate`, `setTimeout`, and the loading spinners. The server's answers are parameters; `Formulario.Guardado` assumes the server stores a record and returns it unchanged except that each date comes back with the time part `T00:00:00.000Z`.
- Routing (`src/App.jsx`), the HTTP client (`src/services/api.js`), the animation presets (`src/components/AnimatedCard.jsx`) and the review form and review list components are outside the modelled core.
- Server-side aggregates (totals, most played game, genre histogram, review averages, top-rated games) are inputs, not computed.
- Texto.ToLowerCase: lowercases ASCII letters only, because full Unicode case mapping needs tables.
- Texto.CodePointCompare: orders titles by code points, because `localeCompare`'s collation depends on the locale; only its being a total order is used.
- `formatFecha` (`toLocaleDateString`), `toFixed` and the rendering of numbers as text, except the rating's `n/5`.
- Floating point: hours and percentages are exact reals. A JavaScript division by zero (`NaN` or an infinity) is modelled as `None`, without telling the two apart.
- JavaScript string-to-number conversions (`parseInt`, `parseFloat`, `new Date`): number inputs are already `Option` values and `fechaAgregado` is an integer timestamp.
- Form fields hold strings in the browser after an edit; the model keeps them as numbers, so "0" typed as a year is treated as 0.
- The loading state of the dashboard and its PDF button (a placeholder alert).
- JSX structure, CSS classes and motion properties.
- Estadisticas.Dashboard: renders the Por jugar bar with the corrected, guarded percentage (see Findings); with no games the source shows `NaN%` where the panel shows 0. Whenever there are games the two agree, which its contract states.
- Tarjeta.GetEstadoColor: a status that names a built-in property of JavaScript objects (`toString`, `constructor`, `__proto__`, …) looks up a truthy function or object and gets that instead of grey; the model treats every status outside the four as unknown.
- Tarjeta.GetEstadoIcon: the same built-in property names get a truthy function or object instead of the gamepad; the model treats them as unknown statuses.

## Findings

| source | as written | input that shows it | evidently intended | confidence | as-written member | corrected member |
|---|---|---|---|---|---|---|
| src/components/EstadisticasPersonales.jsx:196-203 | the Por jugar percentage divides by `totalJuegos` with no guard, unlike lines 72-73 | statistics with `totalJuegos` = 0 (an empty library): the bar text reads `NaN%` and the width is not a number | guard as for the other two bars: 0% when there are no games | not executed; needs the server to send a statistics object for an empty library | Estadisticas.PorJugarWithNoGames | Estadisticas.StatusBarsShareOut |

# Player roster client — a Dafny model

This project models the logic of a small React client for a sports club's
player roster. Visitors see a directory of players sorted by goals. An
administrator who has logged in can create, edit and delete players and can
record match feedback, which adds increments to a player's statistics.

The model has one Dafny module per source file, except that `Tipos` covers
both type files, and two modules have no source file of their own:
`Almacen` for `localStorage` and `Editor` for what the two editor screens
share:

- `Tipos`: the `Jugador` record and the `DecodedToken` identity, plus the
  JavaScript values the handlers branch on: an `Option` for null and
  undefined, `Truthy` for string truthiness, `Promesa` for a settled
  promise, and `Axios` for the outcome of one HTTP exchange.
- `Almacen`: `localStorage` as a string map. Only the key `"token"` is used.
- `Api`: `obtenerJugadores` and the way it turns each kind of axios failure
  into an error message.
- `JugadorService`: the create, update and delete calls. Each call is split
  into the request it sends (a descriptor: verb, URL, headers, body, or none
  at all) and the promise it settles from the server's answer.
- `AuthService`: the login call, which stores the token and then decodes
  it, and the logout call.
- `UseAuth`: the `useAuth` hook, a class with its own `usuario` field.
- `Header`: the login modal, the two-step logout confirmation, the menu,
  and which links and buttons a session can see.
- `Editor`: the unauthorised message and `refreshJugadores`. Both editor
  screens contain identical copies of these.
- `FeedbackJugador`, `GestionarJugadores`, `JugadoresList`: the three
  screens. Each is a class whose fields are the component's React state and
  whose methods are its handlers. Their pure parts are functions: the
  apply-delta record, the delete filter, the field edit, the stable goals
  sort and the rank colour.

The network does not appear in the model. Every remote call is an `Axios<T>`
parameter holding the server's answer. The editor classes keep a ghost log,
`enviadas`, of the write requests they sent and a ghost counter,
`refrescos`, of the list refreshes they ran. That is how the contracts say
"no request is sent" and "a refresh is issued". The JWT decoder is a
function parameter `decode: string -> Option<DecodedToken>`, where None
means the decoder throws. Handlers run one at a time, each to completion. A
refresh that the source starts without awaiting it runs at that point in
the model.

Some behaviours of the code are worth knowing up front, because a reader
might expect otherwise:

- The assists leaderboard is not re-sorted by assists. It is rendered from
  the same goals-sorted list (`JugadoresList.AsistidoresEnOrdenDeGoles`,
  with a concrete case in `JugadoresList.AsistidoresNoOrdenados`).
- Creating a player needs both `nombre` and `apellidos`, not only a name
  (`JugadorService.SolicitudCrear`).
- A failed create shows no error on the management screen. `crearJugador`
  swallows its own failures and resolves to `undefined`, so the screen
  reports "Jugador creado exitosamente" even when nothing was created
  (`GestionarJugadores.GestionarJugadores.HandleSubmit`).
- Nothing keeps statistics non-negative, so they are plain `int`s here.

## Model

| member | source | states |
|---|---|---|
| `Api.ObtenerJugadores` | src/services/api.ts:13-29 | success returns the response data unchanged; every failure rejects, never returns a value, with exactly the message `MensajeDeError` builds for that failure, and the failure's class reads back from that message |
| `Api.ClasificarMensaje` | src/services/api.ts:17-27 | the server-response, no-response and unexpected messages never collide: `Clasificar` recovers each failure's class from its message |
| `Api.DetalleRecuperable` | src/services/api.ts:18-20 | a server-response message begins with "Error al obtener jugadores: " and continues with `data.message`, or with `statusText` when the message is missing or empty |
| `Api.MensajeInesperadoRecuperable` | src/services/api.ts:24-26 | an unexpected error's message begins with "Error inesperado: " and continues with the error's own message |
| `JugadorService.SolicitudCrear` | src/services/jugadorService.ts:4-27 | a POST is sent if and only if the token is truthy and both `nombre` and `apellidos` are truthy; it carries the whole draft, the Bearer header and the JSON content type |
| `JugadorService.CrearJugador` | src/services/jugadorService.ts:4-42 | never rejects; it yields the server's data exactly when a POST was sent and succeeded, and `undefined` otherwise |
| `JugadorService.SolicitudActualizar` | src/services/jugadorService.ts:44-58 | a PUT is sent if and only if the token is truthy; its URL is the admin URL plus "/" plus the id, its body the whole record, and it carries the Bearer and JSON headers |
| `JugadorService.ActualizarJugador` | src/services/jugadorService.ts:44-64 | without a token it throws the missing-token message; otherwise it resolves to the server's data exactly when the PUT succeeds, and any failure is rethrown as one fixed message |
| `JugadorService.SolicitudEliminar` | src/services/jugadorService.ts:68-77 | a DELETE is sent if and only if the token is truthy; it targets the player's URL, has no body and carries only the Authorization header |
| `JugadorService.EliminarJugador` | src/services/jugadorService.ts:68-83 | without a token it throws the missing-token message; otherwise it resolves exactly when the DELETE succeeds, and any failure is rethrown as one fixed message |
| `JugadorService.SolicitudesAutorizadas` | src/services/jugadorService.ts:18-77 | every request of the three calls has as its first header "Authorization: Bearer " + token, and the token reads back from that header |
| `JugadorService.UrlsPorId` | src/services/jugadorService.ts:49-73 | update and delete target a URL from which exactly the given id reads back |
| `JugadorService.SinTokenNingunaSolicitud` | src/services/jugadorService.ts:5-70 | with a missing or empty token none of the three calls sends a request |
| `JugadorService.SinTokenCrearResuelveLosDemasLanzan` | src/services/jugadorService.ts:7-70 | with a missing or empty token `crearJugador` resolves to `undefined`, while update and delete reject |
| `AuthService.Decodificar` | src/services/authService.ts:16 | the login promise resolves exactly when the token decodes, and then to its decoding |
| `AuthService.IniciarSesion` | src/services/authService.ts:6-17 | sends `correo` and `contrasena` unchanged to the login URL; a failed POST leaves storage untouched; a successful one stores the token under "token" first and then returns the decoding of exactly that stored token, so a token that fails to decode stays in storage |
| `AuthService.CerrarSesion` | src/services/authService.ts:20-22 | removes the "token" key and no other key |
| `UseAuth.Hook.constructor` | src/hooks/useAuth.ts:6-22 | on mount: with no truthy token nothing changes and `usuario` is null; a token that decodes makes `usuario` its identity; a token that fails to decode is removed and `usuario` stays null |
| `UseAuth.Hook.Login` | src/hooks/useAuth.ts:24 | sets `usuario` and leaves storage as it was |
| `UseAuth.Hook.Logout` | src/hooks/useAuth.ts:25-28 | removes the token and nulls `usuario`, from any state |
| `UseAuth.Hook.LogoutDosVeces` | src/hooks/useAuth.ts:25-28 | logout is idempotent: two leave the same state as one |
| `Header.Enlaces` | src/components/Header.tsx:92-123 | every layout shows "Temporadas" and "Nosotros" first; the links to the management and feedback pages appear exactly when the user's role is "admin"; a link closes the menu only in the mobile layout (the desktop links at lines 149-176 do not) |
| `Header.BotonSesion` | src/components/Header.tsx:125-139 | the logout button is shown exactly when there is a session and the login button exactly when there is none (the desktop bar at lines 181-195 tests `!usuario` instead) |
| `Header.VistasCoinciden` | src/components/Header.tsx:149-195 | the desktop bar shows the same links, in the same order, and the same session button as the mobile menu |
| `Header.EnlacesAdminConSesion` | src/components/Header.tsx:106-139 | a management link is only ever shown beside the logout button |
| `Header.Header.constructor` | src/components/Header.tsx:7-14 | every flag starts false and every text field starts empty |
| `Header.Header.HandleLogin` | src/components/Header.tsx:16-31 | clears the error first; on success logs the identity in, sets the success message and closes the modal; on failure sets the fixed error message and leaves the modal, the session and the success message as they were, while storage holds the new token if the POST itself succeeded |
| `Header.Header.HandleLogout` | src/components/Header.tsx:33-35 | only sets `confirmLogout`; the session and storage are untouched |
| `Header.Header.ConfirmLogoutAction` | src/components/Header.tsx:37-43 | removes the token, nulls `usuario` so both layouts show only the public links and the login button, empties `correo` and `contrasena`, clears `confirmLogout`, and changes nothing else |
| `Header.Header.CancelLogoutAction` | src/components/Header.tsx:45-47 | only clears `confirmLogout` |
| `Header.Header.ToggleModal` | src/components/Header.tsx:49 | negates `modalOpen` and touches nothing else |
| `Header.Header.ToggleMenu` | src/components/Header.tsx:52 | negates `menuOpen` and touches nothing else |
| `Header.Header.ToggleDosVeces` | src/components/Header.tsx:49-52 | both toggles are involutions: applying either twice restores its flag |
| `Header.Header.SetCorreo` | src/components/Header.tsx:210 | the email input sets `correo` only |
| `Header.Header.SetContrasena` | src/components/Header.tsx:217 | the password input sets `contrasena` only |
| `Header.Header.CerrarMenu` | src/components/Header.tsx:88-118 | a click on a menu link closes the menu only |
| `Editor.Refrescar` | src/components/feedbackJugador.tsx:26-34 | a successful fetch replaces the list and keeps the message; a failed one keeps the list and sets "Error al obtener los jugadores" |
| `FeedbackJugador.AplicarDelta` | src/components/feedbackJugador.tsx:47-58 | each of the four statistics becomes its current value plus its increment; every other field of the record is unchanged |
| `FeedbackJugador.AplicarCeroEsIdentidad` | src/components/feedbackJugador.tsx:47-58 | all-zero increments give back the original record |
| `FeedbackJugador.AplicarDeltaAditivo` | src/components/feedbackJugador.tsx:47-58 | two feedbacks applied one after the other equal one feedback of their sum |
| `FeedbackJugador.AplicarDeltaReversible` | src/components/feedbackJugador.tsx:47-58 | a feedback is undone by the opposite increments |
| `FeedbackJugador.PartidosJugadosTrasDelta` | src/components/feedbackJugador.tsx:52-57 | matches played grow by exactly the won and lost increments |
| `FeedbackJugador.ConCampo` | src/components/feedbackJugador.tsx:82 | the named increment takes the new value and the other three keep theirs |
| `FeedbackJugador.FeedbackJugador.constructor` | src/components/feedbackJugador.tsx:9-18 | the initial React state: empty list, no selection, zero increments, empty message, modal closed |
| `FeedbackJugador.FeedbackJugador.RefreshJugadores` | src/components/feedbackJugador.tsx:26-34 | the list and message become those of `Editor.Refrescar`; nothing else changes; one refresh is counted |
| `FeedbackJugador.FeedbackJugador.AlCambiarUsuario` | src/components/feedbackJugador.tsx:20-24 | refreshes exactly when a session exists |
| `FeedbackJugador.FeedbackJugador.HandleSubmit` | src/components/feedbackJugador.tsx:36-76 | without a truthy token: only the unauthorised message, no request and no refresh. With no selected player with an `_id`: no request, yet the form is reset, the modal closed and the list refreshed. Otherwise: one PUT of the player with increments applied; on success the increments are zero, `jugadorActual` is null, the modal is closed and a refresh runs; on failure only the error message changes |
| `FeedbackJugador.FeedbackJugador.HandleInputChange` | src/components/feedbackJugador.tsx:78-83 | only the named increment changes |
| `FeedbackJugador.FeedbackJugador.AbrirModal` | src/components/feedbackJugador.tsx:85-88 | selects the player and opens the modal; the increments are not reset, so earlier ones carry over |
| `FeedbackJugador.FeedbackJugador.CerrarModal` | src/components/feedbackJugador.tsx:90-92 | clears only the modal flag |
| `GestionarJugadores.AplicarEdicion` | src/components/gestionarJugadores.tsx:87-89 | the edited field reads back the new value, and every other field, `_id` and `fecha` included, keeps its value |
| `GestionarJugadores.EliminarPorId` | src/components/gestionarJugadores.tsx:78 | a record remains if and only if it was in the list and its `_id` is not the given id; the list never grows |
| `GestionarJugadores.EliminarConcatenacion` | src/components/gestionarJugadores.tsx:78 | the filter distributes over concatenation, so the records that stay keep their original order |
| `GestionarJugadores.EliminarUno` | src/components/gestionarJugadores.tsx:78 | a one-record list loses its record exactly when that record carries the id |
| `GestionarJugadores.EliminarIdAusente` | src/components/gestionarJugadores.tsx:78 | deleting an id that no record carries leaves the list unchanged |
| `GestionarJugadores.EliminarIdempotente` | src/components/gestionarJugadores.tsx:78 | deleting the same id twice is the same as deleting it once |
| `GestionarJugadores.EliminarLongitud` | src/components/gestionarJugadores.tsx:78 | the length drops by exactly the number of records carrying the id |
| `Tipos.Jugador.PartidosJugados` | src/components/gestionarJugadores.tsx:196-198 | the matches-played column, computed and never stored; with non-negative counts it is at least the matches won and at least the matches lost |
| `GestionarJugadores.TablaGestion` | src/components/gestionarJugadores.tsx:188-198 | one row per player in list order, keyed by its `_id`, showing its goals and matches played = won + lost |
| `GestionarJugadores.TablaTrasEliminar` | src/components/gestionarJugadores.tsx:188-211 | after a delete no row of the table carries the deleted id, so no delete button passes it again |
| `GestionarJugadores.Borrador` | src/components/gestionarJugadores.tsx:51 | the draft sent to create has no `_id` and otherwise equals the current record |
| `GestionarJugadores.GestionarJugadores.constructor` | src/components/gestionarJugadores.tsx:13-17 | the initial React state: empty list, no selection, empty message, not loading, modal closed |
| `GestionarJugadores.GestionarJugadores.RefreshJugadores` | src/components/gestionarJugadores.tsx:25-33 | the list and message become those of `Editor.Refrescar`; nothing else changes |
| `GestionarJugadores.GestionarJugadores.AlCambiarUsuario` | src/components/gestionarJugadores.tsx:19-23 | refreshes exactly when a session exists |
| `GestionarJugadores.GestionarJugadores.HandleSubmit` | src/components/gestionarJugadores.tsx:35-64 | without a truthy token: only the unauthorised message and no request. With an `_id`: one PUT of the full current record; success clears the selection, closes the modal and refreshes, failure sets only the error message. Without one: `crearJugador` gets the record with `_id` removed, and the screen reports success and resets whatever the server answered. `cargando` is false after every run past the guard |
| `GestionarJugadores.GestionarJugadores.HandleEliminar` | src/components/gestionarJugadores.tsx:66-85 | without a truthy token: only the unauthorised message and no request. Otherwise one DELETE; on success the list is the old list without the records carrying the id; on failure the list is unchanged and the error message is set; `cargando` ends false either way |
| `GestionarJugadores.GestionarJugadores.HandleInputChange` | src/components/gestionarJugadores.tsx:87-89 | only the edited field of the current record changes |
| `GestionarJugadores.GestionarJugadores.AbrirModal` | src/components/gestionarJugadores.tsx:91-94 | clears the selection and opens the modal, nothing else |
| `GestionarJugadores.GestionarJugadores.Editar` | src/components/gestionarJugadores.tsx:202-205 | the row's edit button selects that player and opens the modal |
| `GestionarJugadores.GestionarJugadores.CerrarModal` | src/components/gestionarJugadores.tsx:96-98 | only closes the modal |
| `JugadoresList.OrdenarPermuta` | src/components/JugadoresList.tsx:14-16 | the sorted list is a permutation of the fetched data |
| `JugadoresList.OrdenarOrdena` | src/components/JugadoresList.tsx:14-16 | the sorted list is non-increasing in goals |
| `JugadoresList.OrdenarEstable` | src/components/JugadoresList.tsx:14-16 | players with equal goals keep their fetch order, as the stable `Array.prototype.sort` of ECMAScript 2019 requires |
| `JugadoresList.InsertarEstable` | src/components/JugadoresList.tsx:14-16 | one insertion step appends the player to its own goals group and leaves the other groups unchanged |
| `JugadoresList.InsertarEnSitio` | src/components/JugadoresList.tsx:14-16 | one pass of the in-place sort turns the prefix plus the next element into the specified insertion |
| `JugadoresList.OrdenarEnSitio` | src/components/JugadoresList.tsx:14-16 | sorting the fetched array in place leaves exactly the specified stable goals-descending order |
| `JugadoresList.GoleadoresEjemplo` | src/components/JugadoresList.tsx:14-16 | fetched [Ana 5 goals, Beto 9 goals], the sorted list is Beto then Ana |
| `JugadoresList.RankColor` | src/components/JugadoresList.tsx:28-36 | ranks 1, 2 and 3 get the yellow, gray and orange classes, and exactly every other rank gets "text-gray-200" |
| `JugadoresList.TablaGoleadores` | src/components/JugadoresList.tsx:74-98 | one row per player in list order, with rank index + 1, the rank's colour, the goals, and matches played = won + lost |
| `JugadoresList.TablaAsistidores` | src/components/JugadoresList.tsx:128-152 | one row per player in the same list order, with rank index + 1, the assists, and matches played = won + lost |
| `JugadoresList.TablaJugadores` | src/components/JugadoresList.tsx:181-207 | one row per player with every statistic, and matches played = won + lost |
| `JugadoresList.AsistidoresEnOrdenDeGoles` | src/components/JugadoresList.tsx:128-138 | the assists table shows, row for row, the same players and ranks as the goals table |
| `JugadoresList.AsistidoresNoOrdenados` | src/components/JugadoresList.tsx:128-147 | a concrete fetch where the assists table ranks a player with 0 assists above one with 5 |
| `JugadoresList.JugadoresList.constructor` | src/components/JugadoresList.tsx:6-8 | the list starts empty, `loading` true and the error empty |
| `JugadoresList.JugadoresList.FetchJugadores` | src/components/JugadoresList.tsx:11-23 | on success the stored list is the fetched data sorted stably by goals; on failure the error is set and the list stays as it was; `loading` is false afterwards in both cases |
| `JugadoresList.JugadoresList.Pantalla` | src/components/JugadoresList.tsx:38-46 | while loading only the loading notice shows; after an error only the error shows; otherwise the three tables are shown, each built from the stored list |
| `JugadoresList.MontarConExito` | src/components/JugadoresList.tsx:10-26 | a fresh screen whose fetch succeeds shows the tables, with one goals row per fetched player, the rows in non-increasing goals, and the players forming a permutation of the data |

## Left out

- The network and axios. Every remote call is an `Axios<T>` parameter, and
  the model sends nothing. The login, create, update and delete URLs are
  kept as the constants in the source. The base URL and headers that
  api.ts configures are not modelled.
- `jwtDecode` is a foreign library. It is the `decode` parameter, and its
  exception carries no modelled message (`ErrorExterno`).
- Rendering. The model covers the columns of the three directory tables
  and of the management table, `getRankColor`, and which session buttons
  and links each header layout shows. Other JSX, CSS
  classes, `console.*` and `alert` are not modelled.
- The 2-second `setTimeout` that clears the login success message
  (Header.tsx:24-26) is a timer.
- Concurrency. Handlers run one at a time, each to completion. So the lost
  update between two concurrent feedback submissions, where the last write
  wins, is not modelled.
- JavaScript numbers. `+e.target.value` can produce NaN or a fraction;
  statistics are modelled as unbounded `int`s.
- Routing in src/App.tsx is plumbing. It declares no feedback route and no
  role guard, so the model has no route protection.
- Hook identity. Each `useAuth()` call holds its own `usuario`, and
  `UseAuth.Hook` models one such instance; the model does not assume a
  shared session. The editors' own hook instances are not composed in: the
  effect keyed on `usuario` is modelled as `AlCambiarUsuario` with
  `usuario` as a parameter.
- GestionarJugadores.GestionarJugadores.HandleInputChange: with no record
  selected, the source spreads `null`. That yields an object holding only
  the edited field. The model starts from `JugadorVacio` instead (empty
  strings, no optional fields, zero statistics). Both are falsy for the
  create validation. The only difference is which properties the POST body
  omits, and that is server-side, so out of scope.
- GestionarJugadores.Borrador: with no record selected the source passes
  `{ _id: undefined }` to `crearJugador`. The model passes `JugadorVacio`
  without `_id`. Both
  fail the `nombre`/`apellidos` validation the same way.
- GestionarJugadores.GestionarJugadores.HandleEliminar: the id is a
  string. The row's delete button passes `jugador._id!`, and the `!`
  assumes every listed record has an `_id`. For a record without one the
  source would pass `undefined`, send a DELETE to `.../admin/undefined`,
  and on success drop every record lacking an `_id`. The model does not
  express that call.
- Api.ObtenerJugadores: `error.response.data` is modelled as having an
  optional string `message`. A missing `data` or a non-string `message` is
  not modelled.
- JugadoresList.OrdenarEnSitio: the JavaScript engine's sort algorithm is
  not modelled. The model uses one stable insertion sort, specified by
  `OrdenarPorGoles`, and proves the three properties the source relies on:
  sorted, a permutation, and stable. A response that is not an array, on
  which `sort` would throw, is excluded by typing the data as a sequence of
  players.
- What `crearJugador`'s alert says after a failed POST is presentation. Only
  its effect is modelled: the call resolves to `undefined`.
